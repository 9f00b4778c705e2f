/** In which turn the introduction service accepts setup messages, over every run of it. */
module IntroductionRelays {
  import opened Settlement
  import opened Introduction
  import opened IntroductionAccounts

  // ------------------------------------------------ one offer, one answer

  /** The setup message a step accepts, if it accepts one. */
  ghost function Accepted(s: Service, step: Step): (r: seq<Kind>) {
    if !step.Message? || step.conn !in s.peers || s.peers[step.conn].left || !step.request.Setup? then []
    else
      match s.peers[step.conn].role
      case NoRole => []
      case HostRole(route) => AcceptedIn(s, step, route, true)
      case GuestRole(route, _) => AcceptedIn(s, step, route, false)
  }

  ghost function AcceptedIn(s: Service, step: Step, route: Route, host: bool): (r: seq<Kind>)
    requires step.Message? && step.request.Setup?
  {
    if route !in s.rooms || !Live(s.rooms[route], step.now) || !step.allowed
       || !DoSetup(s, step.conn, route, host, step.request).ok then []
    else
      var conn := s.rooms[route].guests[step.request.public].conn;
      [if host then Offer(conn) else Answer(conn)]
  }

  ghost function AcceptedAll(s: Service, steps: seq<Step>): (r: seq<Kind>) {
    if |steps| == 0 then []
    else
      var k := |steps| - 1;
      AcceptedAll(s, steps[..k]) + Accepted(AfterAll(s, steps[..k]), steps[k])
  }

  /** For a guest connection at most one offer is accepted, and at most one answer of it, after the offer. */
  predicate InTurn(log: seq<Kind>) {
    && (forall i, j :: 0 <= i < j < |log| ==> log[i] != log[j])
    && (forall j :: 0 <= j < |log| ==> !log[j].Notice? && (log[j].Answer? ==> Offer(log[j].conn) in log[..j]))
  }

  /** No role yet: such a connection is nobody's guest. */
  predicate Unplaced(s: Service, c: nat) {
    c >= s.nextConn || (c in s.peers && s.peers[c].role == NoRole)
  }

  ghost predicate Logged(s: Service, log: seq<Kind>) {
    && (forall k :: k in log && !k.Notice? ==> !Unplaced(s, k.conn))
    && (forall r, p :: r in s.rooms && p in s.rooms[r].guests ==> FlagsMatch(s.rooms[r].guests[p], log))
  }

  predicate FlagsMatch(g: Guest, log: seq<Kind>) {
    (g.offer <==> Offer(g.conn) in log) && (g.answer <==> Answer(g.conn) in log)
  }

  /** A step that relays nothing: roles are only ever taken up, and guests only added afresh or removed. */
  ghost predicate Evolves(s: Service, t: Service) {
    && (forall c :: Unplaced(t, c) ==> Unplaced(s, c))
    && (forall r, p :: r in t.rooms && p in t.rooms[r].guests ==> Carried(s, r, p, t.rooms[r].guests[p]))
  }

  predicate Carried(s: Service, r: Route, p: string, g: Guest) {
    || (r in s.rooms && p in s.rooms[r].guests && s.rooms[r].guests[p] == g)
    || (Unplaced(s, g.conn) && !g.offer && !g.answer)
  }

  lemma EvolvesLogged(s: Service, t: Service, log: seq<Kind>)
    requires Logged(s, log) && InTurn(log) && Evolves(s, t)
    ensures Logged(t, log)
  {
    forall r, p | r in t.rooms && p in t.rooms[r].guests ensures FlagsMatch(t.rooms[r].guests[p], log) {
      assert Carried(s, r, p, t.rooms[r].guests[p]);
    }
  }

  lemma EvolvesOn(s: Service, t: Service, u: Service)
    requires Evolves(s, t) && Evolves(t, u)
    ensures Evolves(s, u)
  {
    forall r, p | r in u.rooms && p in u.rooms[r].guests ensures Carried(s, r, p, u.rooms[r].guests[p]) {
      var g := u.rooms[r].guests[p];
      assert Carried(t, r, p, g);
      if r in t.rooms && p in t.rooms[r].guests && t.rooms[r].guests[p] == g { assert Carried(s, r, p, g); }
    }
  }

  /** Rooms with no guest but old ones, and peers in their roles. */
  lemma EvolvesFrom(s: Service, t: Service)
    requires t.nextConn == s.nextConn && t.peers.Keys <= s.peers.Keys
    requires forall c :: c in t.peers ==> t.peers[c].role == s.peers[c].role || s.peers[c].role == NoRole
    requires forall r :: r in t.rooms ==> t.rooms[r].guests == map[] || (r in s.rooms && SomeOf(t.rooms[r].guests, s.rooms[r].guests))
    ensures Evolves(s, t)
  {
  }

  predicate SomeOf(a: map<string, Guest>, b: map<string, Guest>) {
    forall p :: p in a ==> p in b && b[p] == a[p]
  }

  lemma QueueEvolves(s: Service, c: nat, m: Msg)
    ensures Evolves(s, Queue(s, c, m).service)
  {
    EvolvesFrom(s, Queue(s, c, m).service);
  }

  lemma JoinedEvolves(s: Service, c: nat, route: Route, public: string, attempt: (string, string), guest: Guest)
    requires c in s.peers && s.peers[c].role == NoRole && route in s.rooms && guest.conn == c && !guest.offer && !guest.answer
    ensures Evolves(s, Joined(s, c, route, public, attempt, guest))
  {
    var t := Joined(s, c, route, public, attempt, guest);
    forall r, p | r in t.rooms && p in t.rooms[r].guests ensures Carried(s, r, p, t.rooms[r].guests[p]) {
      if !(r == route && p == public) { assert r in s.rooms && p in s.rooms[r].guests; }
    }
  }

  lemma NoRoleEvolves(s: Service, c: nat, now: real, allowed: bool, q: Request)
    requires c in s.peers && s.peers[c].role == NoRole
    ensures Evolves(s, OnMessage(s, c, now, allowed, q).service)
  {
    hide Queue, Evolves;
    EvolvesFrom(s, s);
    match q
    case Lookup(route, reply) =>
      var s1 := s.(peers := s.peers[c := s.peers[c].(lookup := Some(route))]);
      EvolvesFrom(s, s1);
      QueueEvolves(s1, c, Msg(reply, Notice));
      EvolvesOn(s, s1, Queue(s1, c, Msg(reply, Notice)).service);
    case Register(route, _, size, expires, reply) =>
      var s1 := Registered(s, c, route, Room(c, size, Earlier(now + 60.0, expires), expires, map[], {}));
      EvolvesFrom(s, s1);
      QueueEvolves(s1, c, Msg(reply, Notice));
      EvolvesOn(s, s1, Queue(s1, c, Msg(reply, Notice)).service);
    case Join(_, _, _, _, _, _, _, _) => if q.route in s.rooms { JoinEvolves(s, c, q); }
    case _ =>
  }

  lemma JoinEvolves(s: Service, c: nat, q: Request)
    requires c in s.peers && s.peers[c].role == NoRole && q.Join? && q.route in s.rooms
    ensures var s1 := Joined(s, c, q.route, q.public, (q.public, q.nonce), Guest(c, q.size, q.expires, false, false));
            var sent := Queue(s1, c, Msg(q.reply, Notice)).service;
            Evolves(s, sent) && Evolves(s, Queue(sent, s.rooms[q.route].conn, Msg(q.news, Notice)).service)
  {
    hide Queue, Evolves, Joined;
    var guest := Guest(c, q.size, q.expires, false, false);
    var s1 := Joined(s, c, q.route, q.public, (q.public, q.nonce), guest);
    var sent := Queue(s1, c, Msg(q.reply, Notice)).service;
    JoinedEvolves(s, c, q.route, q.public, (q.public, q.nonce), guest);
    QueueEvolves(s1, c, Msg(q.reply, Notice));
    EvolvesOn(s, s1, sent);
    QueueEvolves(sent, s.rooms[q.route].conn, Msg(q.news, Notice));
    EvolvesOn(s, sent, Queue(sent, s.rooms[q.route].conn, Msg(q.news, Notice)).service);
  }

  lemma InRoomEvolves(s: Service, c: nat, now: real, allowed: bool, route: Route, host: bool, q: Request)
    requires c in s.peers && !q.Setup?
    ensures Evolves(s, InRoom(s, c, now, allowed, route, host, q).service)
  {
    hide Queue, Evolves, RoomTotal;
    EvolvesFrom(s, s);
    if route in s.rooms {
      var room := s.rooms[route];
      match q
      case Renew(reply) =>
        var s1 := s.(rooms := s.rooms[route := room.(lease := Earlier(now + 60.0, room.expires))]);
        EvolvesFrom(s, s1);
        QueueEvolves(s1, c, Msg(reply, Notice));
        EvolvesOn(s, s1, Queue(s1, c, Msg(reply, Notice)).service);
      case Shut => EvolvesFrom(s, RemoveRoom(s, route));
      case Reject(public) => if public in room.guests { EvolvesFrom(s, RemoveGuest(s, route, public)); }
      case _ =>
    }
  }

  lemma LeftEvolves(s: Service, c: nat)
    requires c in s.peers
    ensures Evolves(s, Left(s, c))
  {
    hide RoomTotal;
    EvolvesFrom(s, Left(s, c));
  }

  lemma ConnectEvolves(s: Service, deadline: real)
    ensures Evolves(s, Connected(s, deadline))
  {
  }

  /** Setup refused: nothing changed, or nothing but a queue. */
  lemma SetupEvolves(s: Service, c: nat, route: Route, host: bool, q: Request)
    requires q.Setup? && route in s.rooms && !DoSetup(s, c, route, host, q).ok
    ensures Evolves(s, DoSetup(s, c, route, host, q).service)
  {
    EvolvesFrom(s, DoSetup(s, c, route, host, q).service);
  }

  /** A guest's connection is in that place and no other. */
  lemma OnePlace(s: Service, r: Route, p: string, r': Route, p': string)
    requires RoomsOk(s) && r in s.rooms && p in s.rooms[r].guests && r' in s.rooms && p' in s.rooms[r'].guests
    ensures s.rooms[r].guests[p].conn == s.rooms[r'].guests[p'].conn ==> r == r' && p == p'
  {
    assert RoomOk(s, r, s.rooms[r]) && RoomOk(s, r', s.rooms[r']);
    assert GuestOk(s, r, p, s.rooms[r].guests[p]) && GuestOk(s, r', p', s.rooms[r'].guests[p']);
  }

  lemma GuestPlaced(s: Service, r: Route, p: string)
    requires ServiceOk(s) && r in s.rooms && p in s.rooms[r].guests
    ensures !Unplaced(s, s.rooms[r].guests[p].conn)
  {
    assert RoomOk(s, r, s.rooms[r]) && GuestOk(s, r, p, s.rooms[r].guests[p]);
  }

  lemma TurnTaken(log: seq<Kind>, k: Kind)
    requires InTurn(log) && k !in log && !k.Notice? && (k.Answer? ==> Offer(k.conn) in log)
    ensures InTurn(log + [k])
  {
    var more := log + [k];
    assert forall j :: 0 <= j < |log| ==> more[..j] == log[..j];
    assert more[..|log|] == log;
  }

  /** Every place's flags still tell what was relayed, once the relay is noted. */
  lemma FlagMatches(s: Service, route: Route, public: string, host: bool, log: seq<Kind>, k: Kind, r: Route, p: string)
    requires RoomsOk(s) && route in s.rooms && public in s.rooms[route].guests && r in s.rooms && p in s.rooms[r].guests
    requires FlagsMatch(s.rooms[r].guests[p], log)
    requires k == if host then Offer(s.rooms[route].guests[public].conn) else Answer(s.rooms[route].guests[public].conn)
    ensures var g := s.rooms[r].guests[p];
            FlagsMatch(if r == route && p == public then FlaggedGuest(g, host) else g, log + [k])
  {
    hide RoomsOk, FlagsMatch, FlaggedGuest;
    OnePlace(s, r, p, route, public);
    FlagsFollow(s.rooms[r].guests[p], log, host, k, r == route && p == public);
  }

  lemma FlaggedAt(s: Service, route: Route, public: string, host: bool, r: Route, p: string)
    requires route in s.rooms && public in s.rooms[route].guests && r in s.rooms && p in s.rooms[r].guests
    ensures var t, g := Flagged(s, route, public, host), s.rooms[r].guests[p];
            r in t.rooms && p in t.rooms[r].guests
            && t.rooms[r].guests[p] == if r == route && p == public then FlaggedGuest(g, host) else g
  {
  }

  lemma FlagsFollow(g: Guest, log: seq<Kind>, host: bool, k: Kind, mine: bool)
    requires FlagsMatch(g, log) && !k.Notice? && k.Offer? == host && (k.conn == g.conn <==> mine)
    ensures FlagsMatch(if mine then FlaggedGuest(g, host) else g, log + [k])
  {
    assert forall m :: m in log + [k] <==> m in log || m == k;
  }

  /** Noting a relay under the guest's flag. */
  lemma FlagLogged(s: Service, route: Route, public: string, host: bool, log: seq<Kind>, k: Kind)
    requires ServiceOk(s) && Logged(s, log) && InTurn(log) && route in s.rooms && public in s.rooms[route].guests
    requires var g := s.rooms[route].guests[public];
             if host then !g.offer && k == Offer(g.conn) else g.offer && !g.answer && k == Answer(g.conn)
    ensures Logged(Flag(s, route, public, host), log + [k]) && InTurn(log + [k])
  {
    hide ServiceOk, InTurn, RoomsOk;
    var t := Flagged(s, route, public, host);
    assert FlagsMatch(s.rooms[route].guests[public], log);
    TurnTaken(log, k);
    GuestPlaced(s, route, public);
    RoomsPart(s);
    forall r, p | r in t.rooms && p in t.rooms[r].guests ensures FlagsMatch(t.rooms[r].guests[p], log + [k]) {
      FlaggedAt(s, route, public, host, r, p);
      FlagMatches(s, route, public, host, log, k, r, p);
    }
    assert forall c :: Unplaced(t, c) <==> Unplaced(s, c);
  }

  lemma RoomsPart(s: Service)
    requires ServiceOk(s)
    ensures RoomsOk(s)
  {
  }

  lemma SetupLogged(s: Service, c: nat, route: Route, host: bool, q: Request, log: seq<Kind>)
    requires ServiceOk(s) && Logged(s, log) && InTurn(log) && q.Setup? && route in s.rooms && DoSetup(s, c, route, host, q).ok
    ensures q.public in s.rooms[route].guests
    ensures var conn := s.rooms[route].guests[q.public].conn;
            var k := if host then Offer(conn) else Answer(conn);
            Logged(DoSetup(s, c, route, host, q).service, log + [k]) && InTurn(log + [k])
  {
    hide ServiceOk, Queue, Logged, Flag;
    var room, guest := s.rooms[route], s.rooms[route].guests[q.public];
    var k := if host then Offer(guest.conn) else Answer(guest.conn);
    var to := if host then guest.conn else room.conn;
    QueueKeeps(s, to, Msg(q.size, k));
    QueueEvolves(s, to, Msg(q.size, k));
    var t := Queue(s, to, Msg(q.size, k)).service;
    EvolvesLogged(s, t, log);
    FlagLogged(t, route, q.public, host, log, k);
  }

  lemma InRoomLogged(s: Service, step: Step, route: Route, host: bool, log: seq<Kind>)
    requires ServiceOk(s) && Logged(s, log) && InTurn(log) && step.Message? && step.conn in s.peers && step.request.Setup?
    ensures var more := AcceptedIn(s, step, route, host);
            Logged(InRoom(s, step.conn, step.now, step.allowed, route, host, step.request).service, log + more)
            && InTurn(log + more)
  {
    hide ServiceOk, DoSetup, Logged, InTurn, Evolves;
    assert log + [] == log;
    if route in s.rooms && Live(s.rooms[route], step.now) && step.allowed {
      if DoSetup(s, step.conn, route, host, step.request).ok {
        SetupLogged(s, step.conn, route, host, step.request, log);
      } else {
        SetupEvolves(s, step.conn, route, host, step.request);
        EvolvesLogged(s, DoSetup(s, step.conn, route, host, step.request).service, log);
      }
    }
  }

  lemma MessageLogged(s: Service, step: Step, log: seq<Kind>)
    requires ServiceOk(s) && Logged(s, log) && InTurn(log) && step.Message? && step.conn in s.peers && !s.peers[step.conn].left
    ensures Logged(After(s, step), log + Accepted(s, step)) && InTurn(log + Accepted(s, step))
  {
    hide ServiceOk, InRoom, Logged, InTurn, Evolves, AcceptedIn, DoLookup, DoRegister, DoJoin;
    assert log + [] == log;
    var c, q := step.conn, step.request;
    match s.peers[c].role
    case NoRole =>
      NoRoleEvolves(s, c, step.now, step.allowed, q);
      EvolvesLogged(s, After(s, step), log);
    case HostRole(route) => PlacedLogged(s, step, route, true, log);
    case GuestRole(route, _) => PlacedLogged(s, step, route, false, log);
  }

  lemma PlacedLogged(s: Service, step: Step, route: Route, host: bool, log: seq<Kind>)
    requires ServiceOk(s) && Logged(s, log) && InTurn(log) && step.Message? && step.conn in s.peers
    ensures var more := if step.request.Setup? then AcceptedIn(s, step, route, host) else [];
            Logged(InRoom(s, step.conn, step.now, step.allowed, route, host, step.request).service, log + more)
            && InTurn(log + more)
  {
    hide ServiceOk, InRoom, Logged, InTurn, Evolves, AcceptedIn;
    assert log + [] == log;
    if step.request.Setup? {
      InRoomLogged(s, step, route, host, log);
    } else {
      InRoomEvolves(s, step.conn, step.now, step.allowed, route, host, step.request);
      EvolvesLogged(s, InRoom(s, step.conn, step.now, step.allowed, route, host, step.request).service, log);
    }
  }

  /** Steps that are not messages relay nothing. */
  lemma OtherEvolves(s: Service, step: Step)
    requires !step.Message?
    ensures Evolves(s, After(s, step))
  {
    hide Queue, Evolves, RoomTotal, Left, Connected;
    EvolvesFrom(s, s);
    match step
    case Connect(size, deadline) =>
      ConnectEvolves(s, deadline);
      QueueEvolves(Connected(s, deadline), s.nextConn, Msg(size, Notice));
      EvolvesOn(s, Connected(s, deadline), Queue(Connected(s, deadline), s.nextConn, Msg(size, Notice)).service);
    case Leave(c) => if c in s.peers { LeftEvolves(s, c); }
    case _ => EvolvesFrom(s, After(s, step));
  }

  lemma StepLogged(s: Service, step: Step, log: seq<Kind>)
    requires ServiceOk(s) && Logged(s, log) && InTurn(log)
    ensures Logged(After(s, step), log + Accepted(s, step)) && InTurn(log + Accepted(s, step))
  {
    hide ServiceOk, After, Logged, InTurn, Evolves;
    assert log + [] == log;
    if step.Message? {
      if step.conn in s.peers && !s.peers[step.conn].left {
        MessageLogged(s, step, log);
      } else {
        UnheardStays(s, step);
      }
    } else {
      OtherEvolves(s, step);
      EvolvesLogged(s, After(s, step), log);
    }
  }

  lemma UnheardStays(s: Service, step: Step)
    requires step.Message? && (step.conn !in s.peers || s.peers[step.conn].left)
    ensures After(s, step) == s
  {
  }

  /** Over any steps no second offer for a guest connection is accepted, no second answer, and no answer before the offer. */
  lemma {:induction false} AcceptedInTurn(limits: Limits, steps: seq<Step>)
    ensures InTurn(AcceptedAll(NewService(limits), steps))
    ensures Logged(AfterAll(NewService(limits), steps), AcceptedAll(NewService(limits), steps))
  {
    hide After, Accepted;
    if |steps| > 0 {
      var k, s := |steps| - 1, NewService(limits);
      AcceptedInTurn(limits, steps[..k]);
      RunKeeps(limits, steps[..k]);
      StepLogged(AfterAll(s, steps[..k]), steps[k], AcceptedAll(s, steps[..k]));
    }
  }
}
