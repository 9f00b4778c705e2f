/** `IntroductionService` (holdem/introduction_service.py): the object whose fields the steps update. */
module IntroductionServices {
  import opened MapSums
  import opened Settlement
  import opened Introduction
  import opened IntroductionAccounts

  class IntroductionService {
    const limits: Limits
    var peers: map<nat, Peer>
    var rooms: map<Route, Room>
    var challenges: int
    var retained: int
    var nextConn: nat

    function State(): (s: Service)
      reads this
    {
      Service(limits, peers, rooms, challenges, retained, nextConn)
    }

    /** Bytes, challenges, queues and rooms are in order and within their limits. */
    ghost predicate Valid()
      reads this
    {
      ServiceOk(State())
    }

    constructor (limits: Limits)
      ensures Valid() && State() == NewService(limits)
    {
      this.limits := limits;
      peers, rooms, challenges, retained, nextConn := map[], map[], 0, 0, 0;
      NewOk(limits);
    }

    /** `_queue`. */
    method Enqueue(c: nat, m: Msg) returns (ok: bool)
      modifies this`peers, this`retained
      ensures Ran(State(), ok) == Queue(old(State()), c, m)
      ensures old(Valid()) ==> Valid()
    {
      hide ServiceOk;
      if ServiceOk(State()) { QueueKeeps(State(), c, m); }
      if c !in peers {
        return false;
      }
      var p := peers[c];
      if p.closed || m.size > limits.message || p.count >= limits.queuedMessages || p.bytes + m.size > limits.queuedBytes {
        return false;
      }
      if retained + m.size > limits.retained {
        return false;
      }
      retained := retained + m.size;
      peers := peers[c := p.(queue := p.queue + [m], count := p.count + 1, bytes := p.bytes + m.size)];
      ok := true;
    }

    /** `_remove_guest`. */
    method DropGuest(route: Route, public: string)
      requires route in rooms && public in rooms[route].guests
      modifies this`rooms, this`retained
      ensures State() == RemoveGuest(old(State()), route, public)
      ensures old(Valid()) ==> Valid()
    {
      hide ServiceOk;
      if ServiceOk(State()) { RemoveGuestKeeps(State(), route, public); }
      var room := rooms[route];
      retained := retained - room.guests[public].size;
      rooms := rooms[route := room.(guests := room.guests - {public})];
    }

    /** `_remove_room`: the room's bytes, then its guests' one by one. */
    method DropRoom(route: Route)
      modifies this`rooms, this`retained
      ensures State() == RemoveRoom(old(State()), route)
      ensures old(Valid()) ==> Valid()
    {
      hide MapSum, ServiceOk;
      if ServiceOk(State()) { RemoveRoomKeeps(State(), route); }
      if route !in rooms {
        return;
      }
      var room := rooms[route];
      rooms := rooms - {route};
      retained := retained - room.size;
      var rest := room.guests;
      while rest.Keys != {}
        invariant retained - MapSum(GuestBytes(rest)) == old(retained) - RoomTotal(room) && rooms == old(rooms) - {route}
        decreases |rest.Keys|
      {
        var public :| public in rest.Keys;
        GuestDrop(room.(guests := rest), public);
        retained := retained - rest[public].size;
        rest := rest - {public};
      }
      MapSumNone(GuestBytes(rest));
    }

    /** `_detach` up to its wait. */
    method BeginDetach(c: nat)
      requires Valid() && c in peers && !peers[c].left
      modifies this`peers, this`rooms, this`challenges, this`retained
      ensures Valid() && State() == Left(old(State()), c) == After(old(State()), Leave(c))
    {
      hide RoomTotal, ServiceOk;
      LeftKeeps(State(), c);
      var p := peers[c];
      if p.active {
        challenges := challenges - 1;
      }
      peers := peers[c := p.(closed := true, left := true, active := false)];
      match p.role {
        case NoRole =>
        case HostRole(route) => DropRoom(route);
        case GuestRole(route, public) =>
          if route in rooms && public in rooms[route].guests && rooms[route].guests[public].conn == c {
            DropGuest(route, public);
          }
      }
    }

    /** The rest of `_detach`: the message being sent, then the queue, message by message. */
    method EndDetach(c: nat)
      requires Valid() && c in peers && peers[c].left
      modifies this`peers, this`retained
      ensures Valid() && State() == Dropped(old(State()), c) == After(old(State()), Gone(c))
    {
      hide BytesOk, RoomsOk;
      DroppedKeeps(State(), c);
      var p := peers[c];
      if p.flying.Some? {
        retained := retained - p.flying.value.size;
      }
      var rest := p.queue;
      while rest != []
        invariant retained - Sizes(rest) == old(retained) - p.bytes && peers == old(peers)
        decreases |rest|
      {
        retained := retained - rest[0].size;
        rest := rest[1..];
      }
      peers := peers - {c};
    }

    /** The end of `_message`: a setup message checked against the guest's turn, relayed and noted. */
    method RelaySetup(c: nat, route: Route, host: bool, q: Request) returns (ok: bool)
      requires q.Setup? && route in rooms
      modifies this`peers, this`rooms, this`retained
      ensures Ran(State(), ok) == DoSetup(old(State()), c, route, host, q)
      ensures old(Valid()) ==> Valid()
    {
      hide Queue, ServiceOk;
      if ServiceOk(State()) { SetupKeeps(State(), c, route, host, q); }
      if q.public !in rooms[route].guests {
        return false;
      }
      var room := rooms[route];
      var guest := room.guests[q.public];
      if (!host && guest.conn != c) || (if host then guest.offer else guest.answer || !guest.offer) || !q.verified {
        return false;
      }
      ok := Enqueue(if host then guest.conn else room.conn, Msg(q.size, if host then Offer(guest.conn) else Answer(guest.conn)));
      if ok {
        rooms := rooms[route := room.(guests := room.guests[q.public := FlaggedGuest(guest, host)])];
      }
    }

    // ------------------------------------------------------ the messages

    method HandleLookup(c: nat, now: real, allowed: bool, route: Route, reply: nat) returns (ok: bool)
      requires c in peers
      modifies this`peers, this`retained
      ensures Ran(State(), ok) == DoLookup(old(State()), c, now, allowed, route, reply)
    {
      hide Queue, ServiceOk;
      if route !in rooms || !Live(rooms[route], now) || !allowed {
        return false;
      }
      peers := peers[c := peers[c].(lookup := Some(route))];
      ok := Enqueue(c, Msg(reply, Notice));
    }

    method HandleRegister(c: nat, now: real, allowed: bool, q: Request) returns (ok: bool)
      requires c in peers && q.Register?
      modifies this`peers, this`rooms, this`challenges, this`retained
      ensures Ran(State(), ok) == DoRegister(old(State()), c, now, allowed, q)
    {
      hide Queue, ServiceOk;
      if !Answers(peers[c], now, q.verified) || !allowed || q.route in rooms || |rooms.Keys| >= limits.rooms
         || retained + q.size > limits.retained
      {
        return false;
      }
      retained := retained + q.size;
      rooms := rooms[q.route := Room(c, q.size, Earlier(now + 60.0, q.expires), q.expires, map[], {})];
      peers := peers[c := peers[c].(role := HostRole(q.route), active := false)];
      challenges := challenges - 1;
      ok := Enqueue(c, Msg(q.reply, Notice));
    }

    /** The guest's place in the room is taken before either message is queued. */
    method TakePlace(c: nat, q: Request)
      requires c in peers && q.Join? && q.route in rooms
      modifies this`peers, this`rooms, this`challenges, this`retained
      ensures State() == Joined(old(State()), c, q.route, q.public, (q.public, q.nonce),
                                Guest(c, q.size, q.expires, false, false))
    {
      var room := rooms[q.route];
      retained := retained + q.size;
      rooms := rooms[q.route := room.(guests := room.guests[q.public := Guest(c, q.size, q.expires, false, false)],
                                      attempts := room.attempts + {(q.public, q.nonce)})];
      peers := peers[c := peers[c].(role := GuestRole(q.route, q.public), active := false)];
      challenges := challenges - 1;
    }

    method HandleJoin(c: nat, now: real, allowed: bool, q: Request) returns (ok: bool)
      requires c in peers && q.Join?
      modifies this`peers, this`rooms, this`challenges, this`retained
      ensures Ran(State(), ok) == DoJoin(old(State()), c, now, allowed, q)
    {
      hide Queue, ServiceOk, Joined;
      if !Answers(peers[c], now, q.verified) || q.route !in rooms || !Live(rooms[q.route], now) || !allowed
         || !MayJoin(State(), c, q)
      {
        return false;
      }
      var host := rooms[q.route].conn;
      TakePlace(c, q);
      ok := Enqueue(c, Msg(q.reply, Notice));
      if ok {
        ok := Enqueue(host, Msg(q.news, Notice));
      }
    }

    method HandleInRoom(c: nat, now: real, allowed: bool, route: Route, host: bool, q: Request) returns (ok: bool)
      requires c in peers
      modifies this`peers, this`rooms, this`retained
      ensures Ran(State(), ok) == InRoom(old(State()), c, now, allowed, route, host, q)
    {
      hide Queue, ServiceOk, DoSetup, RemoveRoom, RemoveGuest;
      if route !in rooms || !Live(rooms[route], now) || !allowed {
        return false;
      }
      if q.Setup? {
        ok := RelaySetup(c, route, host, q);
        return;
      }
      if !host {
        return false;
      }
      match q {
        case Renew(reply) =>
          rooms := rooms[route := rooms[route].(lease := Earlier(now + 60.0, rooms[route].expires))];
          ok := Enqueue(c, Msg(reply, Notice));
        case Shut =>
          DropRoom(route);
          ok := true;
        case Reject(public) =>
          if public in rooms[route].guests {
            DropGuest(route, public);
          }
          ok := true;
        case _ =>
          ok := false;
      }
    }

    /** `_message`. */
    method Handle(c: nat, now: real, allowed: bool, q: Request) returns (ok: bool)
      requires Valid() && c in peers && !peers[c].left
      modifies this`peers, this`rooms, this`challenges, this`retained
      ensures Valid() && Ran(State(), ok) == OnMessage(old(State()), c, now, allowed, q)
      ensures State() == After(old(State()), Message(c, now, allowed, q))
    {
      hide ServiceOk, DoLookup, DoRegister, DoJoin, InRoom;
      MessageKeeps(State(), c, now, allowed, q);
      match peers[c].role {
        case NoRole =>
          match q {
            case Lookup(route, reply) => ok := HandleLookup(c, now, allowed, route, reply);
            case Register(_, _, _, _, _) => ok := HandleRegister(c, now, allowed, q);
            case Join(_, _, _, _, _, _, _, _) => ok := HandleJoin(c, now, allowed, q);
            case _ => ok := false;
          }
        case HostRole(route) => ok := HandleInRoom(c, now, allowed, route, true, q);
        case GuestRole(route, _) => ok := HandleInRoom(c, now, allowed, route, false, q);
      }
    }

    // ------------------------------------------------- the other steps

    /** The start of `_handle`: a peer, its challenge counted and queued. */
    method Accept(size: nat, deadline: real) returns (ok: bool)
      requires Valid()
      modifies this`peers, this`challenges, this`retained, this`nextConn
      ensures Valid() && State() == After(old(State()), Connect(size, deadline))
    {
      hide ServiceOk, Queue;
      StepKeeps(State(), Connect(size, deadline));
      if challenges >= limits.challenges {
        return false;
      }
      var c := nextConn;
      peers := peers[c := Peer([], None, 0, 0, NoRole, None, true, false, false, deadline)];
      challenges := challenges + 1;
      nextConn := nextConn + 1;
      ok := Enqueue(c, Msg(size, Notice));
    }

    /** `_send` takes the next message off the queue. */
    method TakeNext(c: nat)
      requires Valid() && c in peers && peers[c].flying.None? && peers[c].queue != []
      modifies this`peers
      ensures Valid() && State() == After(old(State()), Dequeue(c))
    {
      hide ServiceOk;
      StepKeeps(State(), Dequeue(c));
      peers := peers[c := peers[c].(flying := Some(peers[c].queue[0]), queue := peers[c].queue[1..])];
    }

    /** `_send` is done with a message, sent or not. */
    method Release(c: nat)
      requires Valid() && c in peers && peers[c].flying.Some?
      modifies this`peers, this`retained
      ensures Valid() && State() == After(old(State()), Sent(c))
    {
      hide ServiceOk;
      StepKeeps(State(), Sent(c));
      var p, size := peers[c], peers[c].flying.value.size;
      peers := peers[c := p.(flying := None, count := p.count - 1, bytes := p.bytes - size)];
      retained := retained - size;
    }

    /** `_maintain`, one peer. */
    method CheckPeer(c: nat, now: real)
      requires Valid()
      modifies this`peers
      ensures Valid() && State() == After(old(State()), ExpirePeer(c, now))
    {
      hide ServiceOk;
      StepKeeps(State(), ExpirePeer(c, now));
      if c in peers && peers[c].active && now >= peers[c].deadline {
        peers := peers[c := peers[c].(closed := true)];
      }
    }

    /** `_maintain`, one room. */
    method CheckRoom(route: Route, now: real)
      requires Valid()
      modifies this`rooms, this`retained
      ensures Valid() && State() == After(old(State()), ExpireRoom(route, now))
    {
      hide ServiceOk, RemoveRoom;
      StepKeeps(State(), ExpireRoom(route, now));
      if route in rooms && !Live(rooms[route], now) {
        DropRoom(route);
      }
    }

    /** `_maintain`, one guest. */
    method CheckGuest(route: Route, public: string, now: real)
      requires Valid()
      modifies this`rooms, this`retained
      ensures Valid() && State() == After(old(State()), ExpireGuest(route, public, now))
    {
      hide ServiceOk, RemoveGuest;
      StepKeeps(State(), ExpireGuest(route, public, now));
      if route in rooms && public in rooms[route].guests && now >= rooms[route].guests[public].expires {
        DropGuest(route, public);
      }
    }
  }
}
