/** How long rooms last and who may be in them, over every run of the introduction service (holdem/introduction_service.py). */
module IntroductionRooms {
  import opened Settlement
  import opened Introduction
  import opened IntroductionAccounts

  /** A room lasts at most to its record's end; a guest looked the room up, is not its host, tried under its own name,
      and its record ends no later than the room's. */
  predicate RoomRight(s: Service, route: Route, room: Room) {
    && Leased(room)
    && forall public :: public in room.guests ==> GuestRight(s, route, room, public, room.guests[public])
  }

  predicate GuestRight(s: Service, route: Route, room: Room, public: string, g: Guest) {
    && public != route.host && g.expires <= room.expires && Tried(room.attempts, public)
    && g.conn in s.peers && s.peers[g.conn].role == GuestRole(route, public) && s.peers[g.conn].lookup == Some(route)
    && !s.peers[g.conn].active
  }

  predicate Tried(attempts: set<(string, string)>, public: string) {
    exists a :: a in attempts && a.0 == public
  }

  ghost predicate RoomsRight(s: Service) {
    forall route :: route in s.rooms ==> RoomRight(s, route, s.rooms[route])
  }

  /** Each room of `t` is one of `s` with no new guest, or new and empty, and connections in a role keep what they are. */
  ghost predicate Milder(s: Service, t: Service) {
    && (forall c :: c in t.peers && c in s.peers && s.peers[c].role != NoRole ==> SamePeer(s.peers[c], t.peers[c]))
    && (forall r :: r in t.rooms ==> Leased(t.rooms[r]) && (t.rooms[r].guests == map[] || (r in s.rooms && Kept(s.rooms[r], t.rooms[r]))))
    && (forall r, p :: r in t.rooms && p in t.rooms[r].guests ==> t.rooms[r].guests[p].conn in t.peers)
  }

  predicate SamePeer(p: Peer, q: Peer) {
    q.role == p.role && q.lookup == p.lookup && (q.active ==> p.active)
  }

  predicate Leased(room: Room) {
    room.lease <= room.expires
  }

  /** The room `b` is `a` with no new guest: the same record, all the tries of `a` and some of its guests. */
  predicate Kept(a: Room, b: Room) {
    b.expires == a.expires && a.attempts <= b.attempts && Fewer(b.guests, a.guests)
  }

  predicate Fewer(a: map<string, Guest>, b: map<string, Guest>) {
    forall p :: p in a ==> p in b && b[p].conn == a[p].conn && b[p].expires == a[p].expires
  }

  lemma MilderRight(s: Service, t: Service)
    requires RoomsRight(s) && Milder(s, t)
    ensures RoomsRight(t)
  {
    forall r | r in t.rooms ensures RoomRight(t, r, t.rooms[r]) {
      forall p | p in t.rooms[r].guests ensures GuestRight(t, r, t.rooms[r], p, t.rooms[r].guests[p]) {
        MilderGuest(s, t, r, p);
      }
    }
  }

  lemma MilderGuest(s: Service, t: Service, r: Route, p: string)
    requires RoomsRight(s) && Milder(s, t) && r in t.rooms && p in t.rooms[r].guests
    ensures GuestRight(t, r, t.rooms[r], p, t.rooms[r].guests[p])
  {
    assert t.rooms[r].guests != map[];
    assert RoomRight(s, r, s.rooms[r]);
    assert GuestRight(s, r, s.rooms[r], p, s.rooms[r].guests[p]);
    var a :| a in s.rooms[r].attempts && a.0 == p;
    assert a in t.rooms[r].attempts;
  }

  /** Guests sit on live connections, as the accounts have it. */
  lemma GuestsConnected(s: Service)
    requires ServiceOk(s)
    ensures forall r, p :: r in s.rooms && p in s.rooms[r].guests ==> s.rooms[r].guests[p].conn in s.peers
  {
    hide PeersOk, BytesOk;
    forall r, p | r in s.rooms && p in s.rooms[r].guests ensures s.rooms[r].guests[p].conn in s.peers {
      assert RoomOk(s, r, s.rooms[r]);
      assert GuestOk(s, r, p, s.rooms[r].guests[p]);
    }
  }

  // ------------------------------------------------------------ the steps

  lemma QueueSame(s: Service, c: nat, m: Msg)
    ensures var t := Queue(s, c, m).service;
            && t.rooms == s.rooms && t.peers.Keys == s.peers.Keys && forall k :: k in s.peers ==> Same3(s.peers[k], t.peers[k])
  {
  }

  predicate Same3(p: Peer, q: Peer) {
    q.role == p.role && q.lookup == p.lookup && q.active == p.active
  }

  /** A queued message changes nothing here. */
  lemma QueuedRight(s: Service, c: nat, m: Msg)
    requires RoomsRight(s)
    ensures RoomsRight(Queue(s, c, m).service)
  {
    hide Queue;
    QueueSame(s, c, m);
    var t := Queue(s, c, m).service;
    forall r | r in t.rooms ensures RoomRight(t, r, t.rooms[r]) {
      assert RoomRight(s, r, s.rooms[r]);
      forall p | p in t.rooms[r].guests ensures GuestRight(t, r, t.rooms[r], p, t.rooms[r].guests[p]) {
        assert GuestRight(s, r, s.rooms[r], p, s.rooms[r].guests[p]);
      }
    }
  }

  lemma Mild(s: Service, t: Service)
    requires RoomsRight(s) && ServiceOk(t)
    requires forall c :: c in t.peers && c in s.peers && s.peers[c].role != NoRole ==> SamePeer(s.peers[c], t.peers[c])
    requires forall r :: r in t.rooms ==> Leased(t.rooms[r]) && (t.rooms[r].guests == map[] || (r in s.rooms && Kept(s.rooms[r], t.rooms[r])))
    ensures RoomsRight(t)
  {
    hide ServiceOk;
    GuestsConnected(t);
    MilderRight(s, t);
  }

  lemma LookupRight(s: Service, c: nat, now: real, allowed: bool, route: Route, reply: nat)
    requires ServiceOk(s) && RoomsRight(s) && c in s.peers && s.peers[c].role == NoRole
    ensures RoomsRight(DoLookup(s, c, now, allowed, route, reply).service)
  {
    hide Queue, ServiceOk;
    var p := s.peers[c].(lookup := Some(route));
    var s1 := s.(peers := s.peers[c := p]);
    PeerNoted(s, c, p);
    OldRooms(s);
    Mild(s, s1);
    QueuedRight(s1, c, Msg(reply, Notice));
  }

  lemma OldRooms(s: Service)
    requires RoomsRight(s)
    ensures forall r :: r in s.rooms ==> Leased(s.rooms[r])
  {
    forall r | r in s.rooms ensures Leased(s.rooms[r]) {
      assert RoomRight(s, r, s.rooms[r]);
    }
  }

  lemma RegisterRight(s: Service, c: nat, now: real, allowed: bool, q: Request)
    requires ServiceOk(s) && RoomsRight(s) && c in s.peers && q.Register? && s.peers[c].role == NoRole
    ensures RoomsRight(DoRegister(s, c, now, allowed, q).service)
  {
    hide Queue, ServiceOk;
    if Answers(s.peers[c], now, q.verified) && q.route !in s.rooms && |s.rooms.Keys| < s.limits.rooms
       && s.retained + q.size <= s.limits.retained
    {
      var room := Room(c, q.size, Earlier(now + 60.0, q.expires), q.expires, map[], {});
      var s1 := Registered(s, c, q.route, room);
      RegisteredKeeps(s, c, q.route, room);
      OldRooms(s);
      Mild(s, s1);
      QueuedRight(s1, c, Msg(q.reply, Notice));
    }
  }

  lemma PlacedRight(s: Service, c: nat, q: Request)
    requires ServiceOk(s) && RoomsRight(s) && c in s.peers && q.Join? && s.peers[c].role == NoRole && q.route in s.rooms
    requires MayJoin(s, c, q) && s.peers[c].active
    ensures RoomsRight(Joined(s, c, q.route, q.public, (q.public, q.nonce), Guest(c, q.size, q.expires, false, false)))
  {
    hide ServiceOk;
    var guest := Guest(c, q.size, q.expires, false, false);
    var t := Joined(s, c, q.route, q.public, (q.public, q.nonce), guest);
    forall r | r in t.rooms ensures RoomRight(t, r, t.rooms[r]) {
      assert RoomRight(s, r, s.rooms[r]);
      forall p | p in t.rooms[r].guests ensures GuestRight(t, r, t.rooms[r], p, t.rooms[r].guests[p]) {
        if r == q.route && p == q.public {
          assert (q.public, q.nonce) in t.rooms[r].attempts;
        } else {
          StillRight(s, c, q, r, p);
        }
      }
    }
  }

  lemma StillRight(s: Service, c: nat, q: Request, r: Route, p: string)
    requires RoomsRight(s) && c in s.peers && q.Join? && s.peers[c].role == NoRole && q.route in s.rooms
    requires r in s.rooms && p in s.rooms[r].guests && !(r == q.route && p == q.public)
    ensures var t := Joined(s, c, q.route, q.public, (q.public, q.nonce), Guest(c, q.size, q.expires, false, false));
            r in t.rooms && p in t.rooms[r].guests && GuestRight(t, r, t.rooms[r], p, t.rooms[r].guests[p])
  {
    assert RoomRight(s, r, s.rooms[r]);
    assert GuestRight(s, r, s.rooms[r], p, s.rooms[r].guests[p]);
    var a :| a in s.rooms[r].attempts && a.0 == p;
    var t := Joined(s, c, q.route, q.public, (q.public, q.nonce), Guest(c, q.size, q.expires, false, false));
    assert a in t.rooms[r].attempts;
  }

  lemma JoinRight(s: Service, c: nat, now: real, allowed: bool, q: Request)
    requires ServiceOk(s) && RoomsRight(s) && c in s.peers && q.Join? && s.peers[c].role == NoRole
    ensures RoomsRight(DoJoin(s, c, now, allowed, q).service)
  {
    hide Queue, ServiceOk, Joined, RoomsRight;
    if q.route in s.rooms && Answers(s.peers[c], now, q.verified) && MayJoin(s, c, q) {
      var s1 := Joined(s, c, q.route, q.public, (q.public, q.nonce), Guest(c, q.size, q.expires, false, false));
      PlacedRight(s, c, q);
      QueuedRight(s1, c, Msg(q.reply, Notice));
      QueuedRight(Queue(s1, c, Msg(q.reply, Notice)).service, s.rooms[q.route].conn, Msg(q.news, Notice));
    }
  }

  lemma FlagRight(s: Service, route: Route, public: string, offer: bool)
    requires RoomsRight(s) && ServiceOk(Flag(s, route, public, offer))
    ensures RoomsRight(Flag(s, route, public, offer))
  {
    hide ServiceOk, RoomsRight;
    OldRooms(s);
    Mild(s, Flag(s, route, public, offer));
  }

  lemma SetupRight(s: Service, c: nat, route: Route, host: bool, q: Request)
    requires ServiceOk(s) && RoomsRight(s) && q.Setup? && route in s.rooms
    ensures RoomsRight(DoSetup(s, c, route, host, q).service)
  {
    hide Queue, ServiceOk, RoomsRight, Flag;
    SetupKeeps(s, c, route, host, q);
    if q.public in s.rooms[route].guests {
      var guest := s.rooms[route].guests[q.public];
      var to, m := if host then guest.conn else s.rooms[route].conn, Msg(q.size, if host then Offer(guest.conn) else Answer(guest.conn));
      QueuedRight(s, to, m);
      if DoSetup(s, c, route, host, q).ok { FlagRight(Queue(s, to, m).service, route, q.public, host); }
    }
  }

  lemma InRoomRight(s: Service, c: nat, now: real, allowed: bool, route: Route, host: bool, q: Request)
    requires ServiceOk(s) && RoomsRight(s) && c in s.peers
    ensures RoomsRight(InRoom(s, c, now, allowed, route, host, q).service)
  {
    hide Queue, ServiceOk, DoSetup, RoomTotal;
    OldRooms(s);
    if route in s.rooms {
      match q
      case Renew(reply) =>
        var lease := Earlier(now + 60.0, s.rooms[route].expires);
        var s1 := s.(rooms := s.rooms[route := s.rooms[route].(lease := lease)]);
        LeaseKeeps(s, route, lease);
        Mild(s, s1);
        QueuedRight(s1, c, Msg(reply, Notice));
      case Shut =>
        RemoveRoomKeeps(s, route);
        Mild(s, RemoveRoom(s, route));
      case Reject(public) =>
        if public in s.rooms[route].guests {
          RemoveGuestKeeps(s, route, public);
          Mild(s, RemoveGuest(s, route, public));
        }
      case Setup(_, _, _) => SetupRight(s, c, route, host, q);
      case _ =>
    }
  }

  lemma StepRight(s: Service, step: Step)
    requires ServiceOk(s) && RoomsRight(s)
    ensures RoomsRight(After(s, step))
  {
    hide Queue, ServiceOk, InRoom, DoLookup, DoRegister, DoJoin, RoomTotal, RoomsRight;
    match step
    case Connect(size, deadline) =>
      if s.challenges < s.limits.challenges {
        ConnectRight(s, deadline);
        QueuedRight(Connected(s, deadline), s.nextConn, Msg(size, Notice));
      }
    case Message(c, now, allowed, q) =>
      if c in s.peers && !s.peers[c].left {
        match s.peers[c].role {
          case NoRole =>
            match q {
              case Lookup(route, reply) => LookupRight(s, c, now, allowed, route, reply);
              case Register(_, _, _, _, _) => RegisterRight(s, c, now, allowed, q);
              case Join(_, _, _, _, _, _, _, _) => JoinRight(s, c, now, allowed, q);
              case _ =>
            }
          case HostRole(route) => InRoomRight(s, c, now, allowed, route, true, q);
          case GuestRole(route, _) => InRoomRight(s, c, now, allowed, route, false, q);
        }
      }
    case _ => QuietRight(s, step);
  }

  lemma ConnectRight(s: Service, deadline: real)
    requires ServiceOk(s) && RoomsRight(s) && s.challenges < s.limits.challenges
    ensures RoomsRight(Connected(s, deadline))
  {
    hide ServiceOk;
    ConnectKeeps(s, 0, deadline);
    OldRooms(s);
    Fresh(s);
    Mild(s, Connected(s, deadline));
  }

  lemma Fresh(s: Service)
    requires ServiceOk(s)
    ensures s.nextConn !in s.peers
  {
    hide BytesOk, RoomsOk, PeerOk;
  }

  lemma QuietPeers(s: Service, step: Step)
    requires !step.Connect? && !step.Message?
    ensures var t := After(s, step);
            forall c :: c in t.peers && c in s.peers && s.peers[c].role != NoRole ==> SamePeer(s.peers[c], t.peers[c])
  {
    hide RoomTotal, Queue, OnMessage;
  }

  lemma QuietRooms(s: Service, step: Step)
    requires !step.Connect? && !step.Message?
    ensures var t := After(s, step);
            forall r :: r in t.rooms ==> r in s.rooms && Kept(s.rooms[r], t.rooms[r]) && t.rooms[r].lease == s.rooms[r].lease
  {
    hide RoomTotal, Queue, OnMessage;
  }

  lemma QuietRight(s: Service, step: Step)
    requires ServiceOk(s) && RoomsRight(s) && !step.Connect? && !step.Message?
    ensures RoomsRight(After(s, step))
  {
    hide ServiceOk, After, RoomsRight, Kept, SamePeer;
    StepKeeps(s, step);
    OldRooms(s);
    QuietPeers(s, step);
    QuietRooms(s, step);
    StillLeased(s, After(s, step));
    Mild(s, After(s, step));
  }

  lemma StillLeased(s: Service, t: Service)
    requires forall r :: r in s.rooms ==> Leased(s.rooms[r])
    requires forall r :: r in t.rooms ==> r in s.rooms && Kept(s.rooms[r], t.rooms[r]) && t.rooms[r].lease == s.rooms[r].lease
    ensures forall r :: r in t.rooms ==> Leased(t.rooms[r])
  {
  }

  // ---------------------------------------------------------- every run

  /** Main result: over any steps, in every room every guest has looked the room up, is not its host, has given up its
      challenge for its place under its own public key, and neither guest nor lease outlasts the room's record. */
  lemma {:induction false} RunRight(limits: Limits, steps: seq<Step>)
    ensures RoomsRight(AfterAll(NewService(limits), steps))
  {
    hide After, RoomsRight, ServiceOk;
    if |steps| == 0 {
      NoRooms(limits);
    } else {
      var k := |steps| - 1;
      RunRight(limits, steps[..k]);
      RunKeeps(limits, steps[..k]);
      StepRight(AfterAll(NewService(limits), steps[..k]), steps[k]);
    }
  }

  lemma NoRooms(limits: Limits)
    ensures RoomsRight(NewService(limits))
  {
  }

  /** A room registered or renewed at `now` takes requests for a minute, and never beyond its record's end. */
  lemma LastsAMinute(s: Service, c: nat, now: real, allowed: bool, q: Request, route: Route, later: real)
    requires c in s.peers && OnMessage(s, c, now, allowed, q).ok
    requires (q.Register? && s.peers[c].role == NoRole && q.route == route) || (q.Renew? && s.peers[c].role == HostRole(route))
    ensures var t := OnMessage(s, c, now, allowed, q).service;
            && route in t.rooms && (q.Register? ==> t.rooms[route].conn == c && t.rooms[route].guests == map[])
            && (Live(t.rooms[route], later) <==> later < now + 60.0 && later < t.rooms[route].expires)
            && t.rooms[route].expires == if q.Register? then q.expires else s.rooms[route].expires
  {
    hide Queue, DoJoin, DoSetup;
    if q.Register? {
      QueueSame(Registered(s, c, route, Room(c, q.size, Earlier(now + 60.0, q.expires), q.expires, map[], {})), c, Msg(q.reply, Notice));
    } else {
      var renewed := s.rooms[route].(lease := Earlier(now + 60.0, s.rooms[route].expires));
      QueueSame(s.(rooms := s.rooms[route := renewed]), c, Msg(q.reply, Notice));
    }
  }

  // ------------------------------------------------- what begins and ends

  /** Connection `c` speaks as the host of room `r` while the room takes requests. */
  predicate HostSpeaks(s: Service, c: nat, r: Route, now: real, allowed: bool) {
    && c in s.peers && !s.peers[c].left && s.peers[c].role == HostRole(r) && allowed
    && r in s.rooms && now < s.rooms[r].lease && now < s.rooms[r].expires
  }

  /** Connection `c` shows a checked record while its own challenge is open. */
  predicate ShowsRecord(s: Service, c: nat, now: real, verified: bool) {
    c in s.peers && !s.peers[c].left && s.peers[c].role == NoRole && verified && s.peers[c].active && now < s.peers[c].deadline
  }

  predicate OpensRoom(s: Service, step: Step, r: Route) {
    && step.Message? && step.request.Register? && step.request.route == r && step.allowed
    && ShowsRecord(s, step.conn, step.now, step.request.verified)
    && |s.rooms.Keys| < s.limits.rooms && s.retained + step.request.size <= s.limits.retained
  }

  predicate EndsRoom(s: Service, step: Step, r: Route)
    requires r in s.rooms
  {
    match step
    case Message(c, now, allowed, q) => q.Shut? && HostSpeaks(s, c, r, now, allowed)
    case Leave(c) => c in s.peers && !s.peers[c].left && s.peers[c].role == HostRole(r)
    case ExpireRoom(x, now) => x == r && (now >= s.rooms[r].lease || now >= s.rooms[r].expires)
    case _ => false
  }

  /** A room begins exactly by a register with a checked record and an open challenge, within the limits, and ends exactly
      when its host closes it or leaves, or its time is up. */
  lemma RoomComesAndGoes(s: Service, step: Step, r: Route)
    ensures r !in s.rooms ==> (r in After(s, step).rooms <==> OpensRoom(s, step, r))
    ensures r in s.rooms ==> (r !in After(s, step).rooms <==> EndsRoom(s, step, r))
  {
    hide Queue, OnMessage, RoomTotal;
    match step
    case Connect(size, deadline) => QueueSame(Connected(s, deadline), s.nextConn, Msg(size, Notice));
    case Message(c, now, allowed, q) =>
      if c in s.peers && !s.peers[c].left { RoomsByMessage(s, c, now, allowed, q, r); }
    case _ =>
  }

  lemma RoomsByMessage(s: Service, c: nat, now: real, allowed: bool, q: Request, r: Route)
    requires c in s.peers && !s.peers[c].left
    ensures var t := OnMessage(s, c, now, allowed, q).service;
            && (r !in s.rooms ==> (r in t.rooms <==> OpensRoom(s, Message(c, now, allowed, q), r)))
            && (r in s.rooms ==> (r !in t.rooms <==> EndsRoom(s, Message(c, now, allowed, q), r)))
  {
    hide Queue, RoomTotal;
    RoomsQueued();
  }

  /** Queueing leaves rooms and roles alone. */
  lemma RoomsQueued()
    ensures forall s: Service, c: nat, m: Msg :: Queue(s, c, m).service.rooms == s.rooms
  {
    forall s: Service, c: nat, m: Msg ensures Queue(s, c, m).service.rooms == s.rooms {
      QueueSame(s, c, m);
    }
  }

  ghost predicate HasGuest(s: Service, r: Route, p: string) {
    r in s.rooms && p in s.rooms[r].guests
  }

  predicate TakesPlace(s: Service, step: Step, r: Route, p: string) {
    && step.Message? && step.request.Join? && step.request.route == r && step.request.public == p && step.allowed
    && ShowsRecord(s, step.conn, step.now, step.request.verified)
    && r in s.rooms && step.now < s.rooms[r].lease && step.now < s.rooms[r].expires
    && s.peers[step.conn].lookup == Some(r) && p != r.host && step.request.expires <= s.rooms[r].expires
    && (p, step.request.nonce) !in s.rooms[r].attempts && |s.rooms[r].attempts| < s.limits.attempts
    && |s.rooms[r].guests.Keys| < s.limits.guests && s.retained + step.request.size <= s.limits.retained
  }

  predicate EndsPlace(s: Service, step: Step, r: Route, p: string)
    requires r in s.rooms && p in s.rooms[r].guests
  {
    match step
    case Message(c, now, allowed, q) => q == Reject(p) && HostSpeaks(s, c, r, now, allowed)
    case Leave(c) => c == s.rooms[r].guests[p].conn
    case ExpireGuest(x, y, now) => x == r && y == p && now >= s.rooms[r].guests[p].expires
    case _ => false
  }

  /** A guest takes its place exactly by joining with a checked record, an open challenge and a fresh attempt at a live room
      it looked up, within the limits; and it loses it exactly when the room ends, the host rejects it, it leaves, or its
      time is up. */
  lemma GuestComesAndGoes(s: Service, step: Step, r: Route, p: string)
    requires ServiceOk(s)
    ensures !HasGuest(s, r, p) ==> (HasGuest(After(s, step), r, p) <==> TakesPlace(s, step, r, p))
    ensures HasGuest(s, r, p) ==> (!HasGuest(After(s, step), r, p) <==> EndsRoom(s, step, r) || EndsPlace(s, step, r, p))
  {
    hide Queue, OnMessage, RoomTotal, ServiceOk, Left;
    match step
    case Connect(size, deadline) => QueueSame(Connected(s, deadline), s.nextConn, Msg(size, Notice));
    case Message(c, now, allowed, q) =>
      if c in s.peers && !s.peers[c].left { GuestsByMessage(s, c, now, allowed, q, r, p); }
    case Leave(c) =>
      if c in s.peers { GuestsLeft(s, c, r, p); } else { GuestsConnected(s); }
    case _ =>
  }

  lemma GuestsByMessage(s: Service, c: nat, now: real, allowed: bool, q: Request, r: Route, p: string)
    requires c in s.peers && !s.peers[c].left
    ensures var t, step := OnMessage(s, c, now, allowed, q).service, Message(c, now, allowed, q);
            && (!HasGuest(s, r, p) ==> (HasGuest(t, r, p) <==> TakesPlace(s, step, r, p)))
            && (HasGuest(s, r, p) ==> (!HasGuest(t, r, p) <==> EndsRoom(s, step, r) || EndsPlace(s, step, r, p)))
  {
    hide InRoom, DoLookup, DoRegister, DoJoin;
    match s.peers[c].role
    case NoRole =>
      RoomsByLookup(s, c, now, allowed, q);
      if q.Register? { GuestsRegistered(s, c, now, allowed, q, r, p); }
      if q.Join? { GuestsJoined(s, c, now, allowed, q, r, p); }
    case HostRole(route) => GuestsInside(s, c, now, allowed, route, true, q, r, p);
    case GuestRole(route, _) => GuestsInside(s, c, now, allowed, route, false, q, r, p);
  }

  lemma RoomsByLookup(s: Service, c: nat, now: real, allowed: bool, q: Request)
    requires c in s.peers && s.peers[c].role == NoRole
    ensures !q.Register? && !q.Join? ==> OnMessage(s, c, now, allowed, q).service.rooms == s.rooms
  {
    hide Queue;
    RoomsQueued();
  }

  lemma GuestsRegistered(s: Service, c: nat, now: real, allowed: bool, q: Request, r: Route, p: string)
    requires c in s.peers && q.Register?
    ensures HasGuest(DoRegister(s, c, now, allowed, q).service, r, p) <==> HasGuest(s, r, p)
  {
    hide Queue;
    RoomsQueued();
  }

  lemma GuestsJoined(s: Service, c: nat, now: real, allowed: bool, q: Request, r: Route, p: string)
    requires c in s.peers && !s.peers[c].left && s.peers[c].role == NoRole && q.Join?
    ensures HasGuest(DoJoin(s, c, now, allowed, q).service, r, p)
       <==> HasGuest(s, r, p) || TakesPlace(s, Message(c, now, allowed, q), r, p)
  {
    hide Queue, DoJoin, Joined;
    RoomsByJoin(s, c, now, allowed, q);
    if q.route in s.rooms { GuestsWith(s, c, q.route, q.public, (q.public, q.nonce), Guest(c, q.size, q.expires, false, false), r, p); }
  }

  lemma RoomsByJoin(s: Service, c: nat, now: real, allowed: bool, q: Request)
    requires c in s.peers && q.Join?
    ensures DoJoin(s, c, now, allowed, q).service.rooms
         == if Answers(s.peers[c], now, q.verified) && q.route in s.rooms && Live(s.rooms[q.route], now) && allowed && MayJoin(s, c, q)
            then Joined(s, c, q.route, q.public, (q.public, q.nonce), Guest(c, q.size, q.expires, false, false)).rooms else s.rooms
  {
    hide Queue, Joined;
    RoomsQueued();
  }

  lemma GuestsWith(s: Service, c: nat, route: Route, public: string, attempt: (string, string), guest: Guest, r: Route, p: string)
    requires c in s.peers && route in s.rooms
    ensures HasGuest(Joined(s, c, route, public, attempt, guest), r, p) <==> HasGuest(s, r, p) || (r == route && p == public)
  {
  }

  lemma GuestsInside(s: Service, c: nat, now: real, allowed: bool, route: Route, host: bool, q: Request, r: Route, p: string)
    requires c in s.peers && !s.peers[c].left && (if host then s.peers[c].role == HostRole(route) else s.peers[c].role.GuestRole?)
    ensures var t, step := InRoom(s, c, now, allowed, route, host, q).service, Message(c, now, allowed, q);
            && (!HasGuest(s, r, p) ==> !HasGuest(t, r, p))
            && (HasGuest(s, r, p) ==> (!HasGuest(t, r, p) <==> EndsRoom(s, step, r) || EndsPlace(s, step, r, p)))
  {
    hide Queue, RoomTotal;
    RoomsQueued();
  }

  lemma GuestsLeft(s: Service, c: nat, r: Route, p: string)
    requires ServiceOk(s) && c in s.peers
    ensures var t, step := if s.peers[c].left then s else Left(s, c), Leave(c);
            && (!HasGuest(s, r, p) ==> !HasGuest(t, r, p))
            && (HasGuest(s, r, p) ==> (!HasGuest(t, r, p) <==> EndsRoom(s, step, r) || EndsPlace(s, step, r, p)))
  {
    hide ServiceOk, Left;
    if HasGuest(s, r, p) { GuestSits(s, r, p); }
    if !s.peers[c].left { LeftGuests(s, c, r, p); }
  }

  lemma GuestSits(s: Service, r: Route, p: string)
    requires ServiceOk(s) && HasGuest(s, r, p)
    ensures var c := s.rooms[r].guests[p].conn; c in s.peers && s.peers[c].role == GuestRole(r, p) && !s.peers[c].left
  {
    hide PeersOk, BytesOk;
    assert RoomOk(s, r, s.rooms[r]);
    assert GuestOk(s, r, p, s.rooms[r].guests[p]);
  }

  lemma LeftGuests(s: Service, c: nat, r: Route, p: string)
    requires c in s.peers
    ensures HasGuest(Left(s, c), r, p) <==>
              && HasGuest(s, r, p) && s.peers[c].role != HostRole(r)
              && !(s.peers[c].role == GuestRole(r, p) && s.rooms[r].guests[p].conn == c)
  {
    hide RoomTotal;
  }

  /** A connection is shut exactly when it leaves or its challenge runs out unanswered; from then on nothing is queued for it. */
  lemma PeerShuts(s: Service, step: Step, c: nat)
    requires c in s.peers && !s.peers[c].closed && !s.peers[c].left
    ensures c in After(s, step).peers
    ensures After(s, step).peers[c].closed <==>
              step == Leave(c) || (step.ExpirePeer? && step.conn == c && s.peers[c].active && step.now >= s.peers[c].deadline)
  {
    hide Queue, OnMessage, RoomTotal;
    match step
    case Connect(size, deadline) => ClosedQueued(Connected(s, deadline), s.nextConn, Msg(size, Notice), c);
    case Message(k, now, allowed, q) =>
      if k in s.peers && !s.peers[k].left { ClosedByMessage(s, k, now, allowed, q, c); }
    case _ =>
  }

  lemma ClosedQueued(s: Service, k: nat, m: Msg, c: nat)
    requires c in s.peers
    ensures c in Queue(s, k, m).service.peers && Queue(s, k, m).service.peers[c].closed == s.peers[c].closed
  {
  }

  lemma ClosedByMessage(s: Service, k: nat, now: real, allowed: bool, q: Request, c: nat)
    requires k in s.peers && c in s.peers
    ensures var t := OnMessage(s, k, now, allowed, q).service; c in t.peers && t.peers[c].closed == s.peers[c].closed
  {
    hide Queue, RoomTotal;
    forall u: Service, to: nat, m: Msg | c in u.peers
      ensures c in Queue(u, to, m).service.peers && Queue(u, to, m).service.peers[c].closed == u.peers[c].closed
    {
      ClosedQueued(u, to, m, c);
    }
  }

  lemma ShutIsSilent(s: Service, c: nat, m: Msg)
    requires c in s.peers && s.peers[c].closed
    ensures Queue(s, c, m) == Ran(s, false)
  {
  }
}
