/** Which messages the introduction service queues for whom, over every run of it (holdem/introduction_service.py). */
module IntroductionDeliveries {
  import opened Settlement
  import opened Introduction
  import opened IntroductionAccounts
  import opened IntroductionRelays

  // ------------------------------------------------- what a step queues

  /** What waits for a connection. */
  function QueueOf(s: Service, c: nat): (q: seq<Msg>) {
    if c in s.peers then s.peers[c].queue else []
  }

  /** What is being sent to it and what waits for it. */
  function Outgoing(s: Service, c: nat): (q: seq<Msg>) {
    if c in s.peers && s.peers[c].flying.Some? then [s.peers[c].flying.value] + QueueOf(s, c) else QueueOf(s, c)
  }

  /** What is queued for connection `c` on the way from `s` to `t`. */
  function Queued(s: Service, t: Service, c: nat): (q: seq<Msg>) {
    if QueueOf(s, c) <= QueueOf(t, c) then QueueOf(t, c)[|QueueOf(s, c)|..] else []
  }

  predicate AllNotices(q: seq<Msg>) {
    forall m :: m in q ==> m.kind.Notice?
  }

  /** Queues only grow, and by notices; what is being sent stays. */
  ghost predicate OnlyNotices(s: Service, t: Service) {
    forall c :: c in t.peers ==>
      && QueueOf(s, c) <= QueueOf(t, c) && AllNotices(Queued(s, t, c))
      && (t.peers[c].flying.Some? ==> c in s.peers && s.peers[c].flying == t.peers[c].flying)
  }

  lemma NoticesOn(s: Service, t: Service, u: Service)
    requires OnlyNotices(s, t) && OnlyNotices(t, u) && u.peers.Keys <= t.peers.Keys
    ensures OnlyNotices(s, u)
  {
    forall c | c in u.peers
      ensures QueueOf(s, c) <= QueueOf(u, c) && AllNotices(Queued(s, u, c))
           && (u.peers[c].flying.Some? ==> c in s.peers && s.peers[c].flying == u.peers[c].flying)
    {
      NoticesJoin(QueueOf(s, c), QueueOf(t, c), QueueOf(u, c));
    }
  }

  lemma NoticesJoin(a: seq<Msg>, b: seq<Msg>, c: seq<Msg>)
    requires a <= b <= c && AllNotices(b[|a|..]) && AllNotices(c[|b|..])
    ensures a <= c && AllNotices(c[|a|..])
  {
    assert c[|a|..] == b[|a|..] + c[|b|..];
  }

  /** Nobody's queue changes. */
  lemma NoticesFrom(s: Service, t: Service)
    requires forall c :: c in t.peers ==>
               c in s.peers && t.peers[c].queue == s.peers[c].queue && (t.peers[c].flying.Some? ==> t.peers[c].flying == s.peers[c].flying)
    ensures OnlyNotices(s, t)
  {
  }

  /** `_queue` appends the message to that connection's queue alone, or changes nothing. */
  lemma QueueAppends(s: Service, c: nat, m: Msg)
    ensures var r := Queue(s, c, m);
            && r.service.peers.Keys == s.peers.Keys
            && (!r.ok ==> r.service == s)
            && (forall k :: k in s.peers ==>
                  r.service.peers[k] == if r.ok && k == c
                    then s.peers[k].(queue := s.peers[k].queue + [m], count := s.peers[k].count + 1, bytes := s.peers[k].bytes + m.size)
                    else s.peers[k])
            && (r.ok ==> c in s.peers)
  {
  }

  lemma NoticeQueued(s: Service, c: nat, size: nat)
    ensures OnlyNotices(s, Queue(s, c, Msg(size, Notice)).service)
    ensures Queue(s, c, Msg(size, Notice)).service.peers.Keys == s.peers.Keys
  {
    hide Queue;
    QueueAppends(s, c, Msg(size, Notice));
  }

  lemma ThenNotice(s: Service, t: Service, c: nat, size: nat)
    requires OnlyNotices(s, t)
    ensures OnlyNotices(s, Queue(t, c, Msg(size, Notice)).service)
    ensures Queue(t, c, Msg(size, Notice)).service.peers.Keys == t.peers.Keys
  {
    hide Queue, OnlyNotices;
    NoticeQueued(t, c, size);
    NoticesOn(s, t, Queue(t, c, Msg(size, Notice)).service);
  }

  lemma NoRoleNotices(s: Service, c: nat, now: real, allowed: bool, q: Request)
    requires c in s.peers && s.peers[c].role == NoRole
    ensures OnlyNotices(s, OnMessage(s, c, now, allowed, q).service)
  {
    hide Queue, OnlyNotices;
    NoticesFrom(s, s);
    match q
    case Lookup(route, reply) =>
      var s1 := s.(peers := s.peers[c := s.peers[c].(lookup := Some(route))]);
      NoticesFrom(s, s1);
      ThenNotice(s, s1, c, reply);
    case Register(route, _, size, expires, reply) =>
      var s1 := Registered(s, c, route, Room(c, size, Earlier(now + 60.0, expires), expires, map[], {}));
      NoticesFrom(s, s1);
      ThenNotice(s, s1, c, reply);
    case Join(_, _, _, _, _, _, _, _) => if q.route in s.rooms { JoinNotices(s, c, q); }
    case _ =>
  }

  lemma JoinNotices(s: Service, c: nat, q: Request)
    requires c in s.peers && q.Join? && q.route in s.rooms
    ensures var s1 := Joined(s, c, q.route, q.public, (q.public, q.nonce), Guest(c, q.size, q.expires, false, false));
            var sent := Queue(s1, c, Msg(q.reply, Notice)).service;
            OnlyNotices(s, sent) && OnlyNotices(s, Queue(sent, s.rooms[q.route].conn, Msg(q.news, Notice)).service)
  {
    hide Queue, OnlyNotices;
    var s1 := Joined(s, c, q.route, q.public, (q.public, q.nonce), Guest(c, q.size, q.expires, false, false));
    NoticesFrom(s, s1);
    ThenNotice(s, s1, c, q.reply);
    ThenNotice(s, Queue(s1, c, Msg(q.reply, Notice)).service, s.rooms[q.route].conn, q.news);
  }

  lemma InRoomNotices(s: Service, c: nat, now: real, allowed: bool, route: Route, host: bool, q: Request)
    requires c in s.peers && !q.Setup?
    ensures OnlyNotices(s, InRoom(s, c, now, allowed, route, host, q).service)
  {
    hide Queue, OnlyNotices, RoomTotal;
    NoticesFrom(s, s);
    if route in s.rooms {
      var room := s.rooms[route];
      match q
      case Renew(reply) =>
        var s1 := s.(rooms := s.rooms[route := room.(lease := Earlier(now + 60.0, room.expires))]);
        NoticesFrom(s, s1);
        ThenNotice(s, s1, c, reply);
      case Shut => NoticesFrom(s, RemoveRoom(s, route));
      case Reject(public) => if public in room.guests { NoticesFrom(s, RemoveGuest(s, route, public)); }
      case _ =>
    }
  }

  /** Every step but a setup message or the sender's own queues nothing but notices. */
  lemma OtherNotices(s: Service, step: Step)
    requires PeersOk(s) && !step.Message? && !step.Dequeue?
    ensures OnlyNotices(s, After(s, step))
  {
    hide Queue, RoomTotal, OnlyNotices, PeerOk;
    NoticesFrom(s, s);
    match step
    case Connect(size, deadline) =>
      NewPeerNotices(s, deadline);
      ThenNotice(s, Connected(s, deadline), s.nextConn, size);
    case Leave(c) => if c in s.peers && !s.peers[c].left { LeaveNotices(s, c); }
    case _ => NoticesFrom(s, After(s, step));
  }

  lemma LeaveNotices(s: Service, c: nat)
    requires c in s.peers
    ensures OnlyNotices(s, Left(s, c))
  {
    hide RoomTotal, OnlyNotices;
    NoticesFrom(s, Left(s, c));
  }

  lemma NewPeerNotices(s: Service, deadline: real)
    requires PeersOk(s)
    ensures OnlyNotices(s, Connected(s, deadline))
  {
    hide PeerOk;
    assert s.nextConn !in s.peers;
  }

  // -------------------------------------------------------- setup messages

  /** A setup message that is accepted is appended to the guest's queue if the host sent it, to the host connection's of the
      guest's room if the guest did; no other queue changes. A refused one changes nothing. */
  lemma SetupGoesTo(s: Service, c: nat, route: Route, host: bool, q: Request)
    requires q.Setup? && route in s.rooms
    ensures var r := DoSetup(s, c, route, host, q);
            && (!r.ok ==> r.service == s)
            && (r.ok ==>
                  && q.public in s.rooms[route].guests
                  && var guest := s.rooms[route].guests[q.public];
                     var to := if host then guest.conn else s.rooms[route].conn;
                     var m := Msg(q.size, if host then Offer(guest.conn) else Answer(guest.conn));
                     && to in s.peers && r.service.peers.Keys == s.peers.Keys && (!host ==> guest.conn == c)
                     && QueueOf(r.service, to) == QueueOf(s, to) + [m]
                     && (forall k :: k in s.peers && k != to ==> r.service.peers[k] == s.peers[k])
                     && r.service.peers[to].flying == s.peers[to].flying && r.service.peers[to].role == s.peers[to].role)
  {
    hide Queue;
    if q.public in s.rooms[route].guests {
      var guest := s.rooms[route].guests[q.public];
      var to, m := if host then guest.conn else s.rooms[route].conn, Msg(q.size, if host then Offer(guest.conn) else Answer(guest.conn));
      QueueAppends(s, to, m);
    }
  }

  /** The setup message of an accepted request, and where it goes. */
  datatype Relay = Relay(to: nat, kind: Kind)

  /** Message `m`, not a notice, is queued for connection `c` on the way. */
  ghost predicate Passed(s: Service, t: Service, c: nat, m: Msg) {
    c in t.peers && m in Queued(s, t, c) && !m.kind.Notice?
  }

  /** What setup message is queued on the way from `s` to `t`, and for whom. */
  ghost function Relayed(s: Service, t: Service): (r: seq<Relay>) {
    if exists c, m :: Passed(s, t, c, m) then
      var c, m :| Passed(s, t, c, m);
      [Relay(c, m.kind)]
    else []
  }

  lemma NothingPassed(s: Service, t: Service)
    requires OnlyNotices(s, t)
    ensures Relayed(s, t) == [] && forall c, m :: !Passed(s, t, c, m)
  {
  }

  /** Where the setup message a guest of the room on `route` and its host exchange must go. */
  ghost predicate RightlyTo(s: Service, e: Relay) {
    match e.kind
    case Notice => false
    case Offer(conn) => e.to == conn
    case Answer(conn) => exists r, p :: r in s.rooms && p in s.rooms[r].guests && s.rooms[r].guests[p].conn == conn && s.rooms[r].conn == e.to
  }

  /** What a step queues of setup messages is the one it accepts, rightly addressed. */
  ghost predicate PassedOn(s: Service, t: Service, kinds: seq<Kind>) {
    && |Relayed(s, t)| == |kinds| <= 1
    && (|kinds| == 1 ==> Relayed(s, t)[0].kind == kinds[0] && RightlyTo(s, Relayed(s, t)[0]))
    && forall c, m :: Passed(s, t, c, m) ==> Relay(c, m.kind) in Relayed(s, t)
  }

  lemma OnePassed(s: Service, t: Service, to: nat, m: Msg)
    requires to in s.peers && t.peers.Keys == s.peers.Keys && QueueOf(t, to) == QueueOf(s, to) + [m] && !m.kind.Notice?
    requires forall k :: k in s.peers && k != to ==> t.peers[k] == s.peers[k]
    requires RightlyTo(s, Relay(to, m.kind))
    ensures PassedOn(s, t, [m.kind])
  {
    hide RightlyTo;
    assert Queued(s, t, to) == [m];
    assert Passed(s, t, to, m);
    assert forall c, x :: Passed(s, t, c, x) ==> c == to && x == m;
  }

  lemma InRoomPassed(s: Service, step: Step, route: Route, host: bool)
    requires step.Message? && step.conn in s.peers && step.request.Setup?
    ensures PassedOn(s, InRoom(s, step.conn, step.now, step.allowed, route, host, step.request).service, AcceptedIn(s, step, route, host))
  {
    hide DoSetup, OnlyNotices, Passed, Relayed;
    NoticesFrom(s, s);
    NothingPassed(s, s);
    if route in s.rooms && Live(s.rooms[route], step.now) && step.allowed {
      var q := step.request;
      SetupGoesTo(s, step.conn, route, host, q);
      if DoSetup(s, step.conn, route, host, q).ok {
        var guest := s.rooms[route].guests[q.public];
        var to, m := if host then guest.conn else s.rooms[route].conn, Msg(q.size, if host then Offer(guest.conn) else Answer(guest.conn));
        assert RightlyTo(s, Relay(to, m.kind));
        OnePassed(s, DoSetup(s, step.conn, route, host, q).service, to, m);
      }
    }
  }

  lemma NonePassed(s: Service, t: Service)
    requires OnlyNotices(s, t)
    ensures PassedOn(s, t, [])
  {
    NothingPassed(s, t);
  }

  lemma PlacedPassed(s: Service, step: Step, route: Route, host: bool)
    requires step.Message? && step.conn in s.peers
    ensures PassedOn(s, InRoom(s, step.conn, step.now, step.allowed, route, host, step.request).service,
                     if step.request.Setup? then AcceptedIn(s, step, route, host) else [])
  {
    hide InRoom, AcceptedIn, PassedOn, OnlyNotices;
    if step.request.Setup? {
      InRoomPassed(s, step, route, host);
    } else {
      InRoomNotices(s, step.conn, step.now, step.allowed, route, host, step.request);
      NonePassed(s, InRoom(s, step.conn, step.now, step.allowed, route, host, step.request).service);
    }
  }

  lemma DequeuePasses(s: Service, c: nat)
    requires c in s.peers && s.peers[c].flying.None? && s.peers[c].queue != []
    ensures PassedOn(s, Dequeued(s, c), [])
  {
    var t := Dequeued(s, c);
    forall k, m ensures !Passed(s, t, k, m) {
      if k in t.peers && k != c { assert QueueOf(t, k) == QueueOf(s, k); }
    }
  }

  lemma StepPasses(s: Service, step: Step)
    requires PeersOk(s)
    ensures PassedOn(s, After(s, step), Accepted(s, step))
  {
    hide InRoom, AcceptedIn, PassedOn, OnlyNotices, OnMessage, PeersOk, Queue, RoomTotal;
    NoticesFrom(s, s);
    NonePassed(s, s);
    match step
    case Message(c, now, allowed, q) => if c in s.peers && !s.peers[c].left { MessagePasses(s, step); }
    case Dequeue(c) => if c in s.peers && s.peers[c].flying.None? && s.peers[c].queue != [] { DequeuePasses(s, c); }
    case _ =>
      OtherNotices(s, step);
      NonePassed(s, After(s, step));
  }

  lemma MessagePasses(s: Service, step: Step)
    requires step.Message? && step.conn in s.peers && !s.peers[step.conn].left
    ensures PassedOn(s, After(s, step), Accepted(s, step))
  {
    hide InRoom, AcceptedIn, PassedOn, OnlyNotices, DoLookup, DoRegister, DoJoin;
    match s.peers[step.conn].role
    case NoRole =>
      NoRoleNotices(s, step.conn, step.now, step.allowed, step.request);
      NonePassed(s, After(s, step));
    case HostRole(route) => PlacedPassed(s, step, route, true);
    case GuestRole(route, _) => PlacedPassed(s, step, route, false);
  }

  // ------------------------------------------------------------- places

  /** Guests that take their place on the way from `s` to `t`, with the host connection of their room. */
  ghost function Placed(s: Service, t: Service): (r: set<(nat, nat)>) {
    set c | c in s.peers && c in t.peers && s.peers[c].role == NoRole && t.peers[c].role.GuestRole? && t.peers[c].role.route in t.rooms
      :: (c, t.rooms[t.peers[c].role.route].conn)
  }

  ghost function Places(s: Service, steps: seq<Step>): (r: set<(nat, nat)>) {
    if |steps| == 0 then {}
    else
      var k := |steps| - 1;
      Places(s, steps[..k]) + Placed(AfterAll(s, steps[..k]), AfterAll(s, steps))
  }

  /** Every guest's place is recorded with its room's host connection, and once only. */
  ghost predicate Sited(s: Service, places: set<(nat, nat)>) {
    && (forall r, p :: r in s.rooms && p in s.rooms[r].guests ==> (s.rooms[r].guests[p].conn, s.rooms[r].conn) in places)
    && (forall e :: e in places ==> !Unplaced(s, e.0))
    && OnePlaceEach(places)
  }

  predicate OnePlaceEach(places: set<(nat, nat)>) {
    forall a, b :: a in places && b in places && a.0 == b.0 ==> a == b
  }

  /** A guest of `t` was one of `s`, in the same room under the same host connection, or takes its place on the way. */
  ghost predicate Sites(s: Service, t: Service) {
    forall r, p :: r in t.rooms && p in t.rooms[r].guests ==> SitedFrom(s, t, r, p)
  }

  ghost predicate SitedFrom(s: Service, t: Service, r: Route, p: string)
    requires r in t.rooms && p in t.rooms[r].guests
  {
    var c := t.rooms[r].guests[p].conn;
    || (r in s.rooms && p in s.rooms[r].guests && s.rooms[r].guests[p].conn == c && s.rooms[r].conn == t.rooms[r].conn)
    || (c, t.rooms[r].conn) in Placed(s, t)
  }

  lemma SitesFrom(s: Service, t: Service)
    requires forall r :: r in t.rooms ==>
               t.rooms[r].guests == map[] || (r in s.rooms && t.rooms[r].conn == s.rooms[r].conn && SameConns(t.rooms[r].guests, s.rooms[r].guests))
    ensures Sites(s, t)
  {
    hide Placed;
  }

  predicate SameConns(a: map<string, Guest>, b: map<string, Guest>) {
    forall p :: p in a ==> p in b && b[p].conn == a[p].conn
  }

  lemma QueueRooms(s: Service, c: nat, m: Msg)
    ensures Queue(s, c, m).service.rooms == s.rooms && Queue(s, c, m).service.peers.Keys == s.peers.Keys
    ensures forall k :: k in s.peers ==> Queue(s, c, m).service.peers[k].role == s.peers[k].role
  {
  }

  lemma JoinSites(s: Service, c: nat, now: real, allowed: bool, q: Request)
    requires c in s.peers && s.peers[c].role == NoRole && q.Join?
    ensures Sites(s, DoJoin(s, c, now, allowed, q).service)
  {
    hide Queue, Sites;
    SitesFrom(s, s);
    if q.route in s.rooms {
      var room := s.rooms[q.route];
      var s1 := Joined(s, c, q.route, q.public, (q.public, q.nonce), Guest(c, q.size, q.expires, false, false));
      QueueRooms(s1, c, Msg(q.reply, Notice));
      var s2 := Queue(s1, c, Msg(q.reply, Notice)).service;
      QueueRooms(s2, room.conn, Msg(q.news, Notice));
      PlaceTaken(s, c, q, s2);
      PlaceTaken(s, c, q, Queue(s2, room.conn, Msg(q.news, Notice)).service);
    }
  }

  lemma PlaceTaken(s: Service, c: nat, q: Request, t: Service)
    requires c in s.peers && s.peers[c].role == NoRole && q.Join? && q.route in s.rooms
    requires var s1 := Joined(s, c, q.route, q.public, (q.public, q.nonce), Guest(c, q.size, q.expires, false, false));
             t.rooms == s1.rooms && t.peers.Keys == s1.peers.Keys && forall k :: k in s1.peers ==> t.peers[k].role == s1.peers[k].role
    ensures Sites(s, t)
  {
    assert t.peers[c].role == GuestRole(q.route, q.public);
    assert (c, t.rooms[q.route].conn) in Placed(s, t);
    forall r, p | r in t.rooms && p in t.rooms[r].guests ensures SitedFrom(s, t, r, p) {
      if !(r == q.route && p == q.public) { assert r in s.rooms && p in s.rooms[r].guests; }
    }
  }

  lemma NoRoleSites(s: Service, c: nat, now: real, allowed: bool, q: Request)
    requires c in s.peers && s.peers[c].role == NoRole
    ensures Sites(s, OnMessage(s, c, now, allowed, q).service)
  {
    hide Queue, Sites, DoJoin;
    SitesFrom(s, s);
    match q
    case Lookup(route, reply) =>
      var s1 := s.(peers := s.peers[c := s.peers[c].(lookup := Some(route))]);
      QueueRooms(s1, c, Msg(reply, Notice));
      SitesFrom(s, Queue(s1, c, Msg(reply, Notice)).service);
    case Register(route, _, size, expires, reply) =>
      var s1 := Registered(s, c, route, Room(c, size, Earlier(now + 60.0, expires), expires, map[], {}));
      QueueRooms(s1, c, Msg(reply, Notice));
      SitesFrom(s, Queue(s1, c, Msg(reply, Notice)).service);
    case Join(_, _, _, _, _, _, _, _) => JoinSites(s, c, now, allowed, q);
    case _ =>
  }

  lemma InRoomSites(s: Service, c: nat, now: real, allowed: bool, route: Route, host: bool, q: Request)
    requires c in s.peers
    ensures Sites(s, InRoom(s, c, now, allowed, route, host, q).service)
  {
    hide Queue, Sites, RoomTotal;
    SitesFrom(s, s);
    if route in s.rooms {
      var room := s.rooms[route];
      match q
      case Renew(reply) =>
        var s1 := s.(rooms := s.rooms[route := room.(lease := Earlier(now + 60.0, room.expires))]);
        QueueRooms(s1, c, Msg(reply, Notice));
        SitesFrom(s, Queue(s1, c, Msg(reply, Notice)).service);
      case Shut => SitesFrom(s, RemoveRoom(s, route));
      case Reject(public) => if public in room.guests { SitesFrom(s, RemoveGuest(s, route, public)); }
      case Setup(_, _, _) => SetupSites(s, c, route, host, q);
      case _ =>
    }
  }

  lemma SetupSites(s: Service, c: nat, route: Route, host: bool, q: Request)
    requires q.Setup? && route in s.rooms
    ensures Sites(s, DoSetup(s, c, route, host, q).service)
  {
    hide Queue, Sites;
    SitesFrom(s, s);
    if q.public in s.rooms[route].guests {
      var guest := s.rooms[route].guests[q.public];
      var to, m := if host then guest.conn else s.rooms[route].conn, Msg(q.size, if host then Offer(guest.conn) else Answer(guest.conn));
      QueueRooms(s, to, m);
      SitesFrom(s, Queue(s, to, m).service);
      SitesFrom(s, Flag(Queue(s, to, m).service, route, q.public, host));
    }
  }

  lemma StepSites(s: Service, step: Step)
    ensures Sites(s, After(s, step))
  {
    hide Queue, Sites, RoomTotal, InRoom, DoLookup, DoRegister, DoJoin;
    SitesFrom(s, s);
    match step
    case Connect(size, deadline) =>
      QueueRooms(Connected(s, deadline), s.nextConn, Msg(size, Notice));
      SitesFrom(s, After(s, step));
    case Message(c, now, allowed, q) =>
      if c in s.peers {
        match s.peers[c].role
        case NoRole => NoRoleSites(s, c, now, allowed, q);
        case HostRole(route) => InRoomSites(s, c, now, allowed, route, true, q);
        case GuestRole(route, _) => InRoomSites(s, c, now, allowed, route, false, q);
      }
    case Leave(c) => if c in s.peers { LeaveSites(s, c); }
    case ExpireRoom(route, now) => SitesFrom(s, RemoveRoom(s, route));
    case ExpireGuest(route, public, now) =>
      if route in s.rooms && public in s.rooms[route].guests { SitesFrom(s, RemoveGuest(s, route, public)); }
    case _ => SitesFrom(s, After(s, step));
  }

  lemma LeaveSites(s: Service, c: nat)
    requires c in s.peers
    ensures Sites(s, Left(s, c))
  {
    hide RoomTotal, Sites;
    SitesFrom(s, Left(s, c));
  }

  /** Roles are taken up once. */
  lemma StepUnplaced(s: Service, step: Step)
    ensures forall c :: Unplaced(After(s, step), c) ==> Unplaced(s, c)
  {
    hide Queue, RoomTotal, InRoom, DoLookup, DoRegister, DoJoin, Left, RemoveRoom;
    if !step.Message? {
      OtherEvolves(s, step);
    } else if step.conn in s.peers && !s.peers[step.conn].left {
      var c, q := step.conn, step.request;
      match s.peers[c].role
      case NoRole => NoRoleEvolves(s, c, step.now, step.allowed, q);
      case HostRole(route) => InRoomUnplaced(s, c, step.now, step.allowed, route, true, q);
      case GuestRole(route, _) => InRoomUnplaced(s, c, step.now, step.allowed, route, false, q);
    }
  }

  lemma InRoomUnplaced(s: Service, c: nat, now: real, allowed: bool, route: Route, host: bool, q: Request)
    requires c in s.peers
    ensures forall k :: Unplaced(InRoom(s, c, now, allowed, route, host, q).service, k) ==> Unplaced(s, k)
  {
    hide Queue, RoomTotal;
    if !q.Setup? {
      InRoomEvolves(s, c, now, allowed, route, host, q);
    } else if route in s.rooms {
      SetupUnplaced(s, c, route, host, q);
    }
  }

  lemma SetupUnplaced(s: Service, c: nat, route: Route, host: bool, q: Request)
    requires q.Setup? && route in s.rooms
    ensures forall k :: Unplaced(DoSetup(s, c, route, host, q).service, k) ==> Unplaced(s, k)
  {
    hide Queue;
    if q.public in s.rooms[route].guests {
      var guest := s.rooms[route].guests[q.public];
      var to, m := if host then guest.conn else s.rooms[route].conn, Msg(q.size, if host then Offer(guest.conn) else Answer(guest.conn));
      QueueRooms(s, to, m);
      QueueNumbers(s, to, m);
    }
  }

  lemma QueueNumbers(s: Service, c: nat, m: Msg)
    ensures Queue(s, c, m).service.nextConn == s.nextConn
  {
  }

  lemma StepSited(s: Service, step: Step, places: set<(nat, nat)>)
    requires ServiceOk(s) && Sited(s, places)
    ensures Sited(After(s, step), places + Placed(s, After(s, step)))
  {
    hide After, ServiceOk;
    var t := After(s, step);
    StepSites(s, step);
    StepUnplaced(s, step);
    StepKeeps(s, step);
    NumbersUsed(t);
    forall r, p | r in t.rooms && p in t.rooms[r].guests
      ensures (t.rooms[r].guests[p].conn, t.rooms[r].conn) in places + Placed(s, t)
    {
      assert SitedFrom(s, t, r, p);
    }
  }

  lemma NumbersUsed(s: Service)
    requires ServiceOk(s)
    ensures forall c :: c in s.peers ==> c < s.nextConn
  {
    hide BytesOk, RoomsOk, PeerOk;
  }

  // ----------------------------------------------------- every run of it

  /** The setup messages queued over a run, and for whom. */
  ghost function Log(s: Service, steps: seq<Step>): (r: seq<Relay>) {
    if |steps| == 0 then []
    else
      var k := |steps| - 1;
      Log(s, steps[..k]) + Relayed(AfterAll(s, steps[..k]), AfterAll(s, steps))
  }

  function Kinds(log: seq<Relay>): (r: seq<Kind>)
    ensures |r| == |log| && forall k :: 0 <= k < |log| ==> r[k] == log[k].kind
  {
    seq(|log|, k requires 0 <= k < |log| => log[k].kind)
  }

  /** Offers go to the guest they are for, answers to the host connection of the room the guest took its place in. */
  ghost predicate Addressed(log: seq<Relay>, places: set<(nat, nat)>) {
    forall e :: e in log ==>
      match e.kind
      case Notice => false
      case Offer(conn) => e.to == conn
      case Answer(conn) => (conn, e.to) in places
  }

  /** Every setup message waiting or being sent is one that was queued there. */
  ghost predicate Accounted(s: Service, log: seq<Relay>) {
    forall c, m :: c in s.peers && m in Outgoing(s, c) && !m.kind.Notice? ==> Relay(c, m.kind) in log
  }

  lemma StepAddressed(s: Service, step: Step, log: seq<Relay>, places: set<(nat, nat)>)
    requires ServiceOk(s) && Sited(s, places) && Addressed(log, places)
    ensures Addressed(log + Relayed(s, After(s, step)), places + Placed(s, After(s, step)))
  {
    hide After, Placed, Relayed, Accepted, Addressed, Sited, ServiceOk;
    SoundPeers(s);
    StepPasses(s, step);
    AddressedNow(s, After(s, step), Accepted(s, step), places);
    AddressedBoth(log, Relayed(s, After(s, step)), places, Placed(s, After(s, step)));
  }

  lemma SoundPeers(s: Service)
    requires ServiceOk(s)
    ensures PeersOk(s)
  {
  }

  lemma AddressedNow(s: Service, t: Service, kinds: seq<Kind>, places: set<(nat, nat)>)
    requires PassedOn(s, t, kinds) && Sited(s, places)
    ensures Addressed(Relayed(s, t), places)
  {
    hide Relayed;
    forall e | e in Relayed(s, t) ensures e == Relayed(s, t)[0] && RightlyTo(s, e) {
    }
  }

  lemma AddressedBoth(log: seq<Relay>, more: seq<Relay>, places: set<(nat, nat)>, extra: set<(nat, nat)>)
    requires Addressed(log, places) && Addressed(more, places)
    ensures Addressed(log + more, places + extra)
  {
  }

  /** What waits or is being sent afterwards did before, or is queued on the way. */
  lemma StepOutgoing(s: Service, step: Step, c: nat, m: Msg)
    requires PeersOk(s) && c in After(s, step).peers && m in Outgoing(After(s, step), c) && !m.kind.Notice?
    ensures (c in s.peers && m in Outgoing(s, c)) || Passed(s, After(s, step), c, m)
  {
    hide After, OnlyNotices, PeersOk;
    var t := After(s, step);
    OutgoingFrom(s, step, c);
    if m in QueueOf(t, c) && QueueOf(s, c) <= QueueOf(t, c) {
      assert QueueOf(t, c) == QueueOf(s, c) + Queued(s, t, c);
    }
  }

  /** The order is kept: what goes out to a connection loses at most its head, or gains only at its end. */
  lemma OutgoingFrom(s: Service, step: Step, c: nat)
    requires PeersOk(s) && c in After(s, step).peers
    ensures var t := After(s, step);
            || (Outgoing(t, c) == Outgoing(s, c) + Queued(s, t, c) && QueueOf(s, c) <= QueueOf(t, c))
            || (Outgoing(t, c) == Outgoing(s, c) && Queued(s, t, c) == [])
            || (Outgoing(s, c) != [] && Outgoing(t, c) == Outgoing(s, c)[1..] && Queued(s, t, c) == [])
  {
    hide InRoom, DoLookup, DoRegister, DoJoin, Queue, RoomTotal, PeerOk, RemoveRoom, RemoveGuest;
    match step
    case Dequeue(k) =>
    case Sent(k) =>
    case Message(k, now, allowed, q) => if k in s.peers && !s.peers[k].left { MessageOutgoing(s, step, c); }
    case _ => StayOrNotice(s, step, c);
  }

  lemma StayOrNotice(s: Service, step: Step, c: nat)
    requires PeersOk(s) && !step.Message? && !step.Dequeue? && !step.Sent? && c in After(s, step).peers
    ensures var t := After(s, step); Outgoing(t, c) == Outgoing(s, c) + Queued(s, t, c) && QueueOf(s, c) <= QueueOf(t, c)
  {
    hide After, PeersOk, OnlyNotices, Outgoing, Queued;
    OtherNotices(s, step);
    FlyingStays(s, step, c);
    OutgoingGrows(s, After(s, step), c);
  }

  lemma FlyingStays(s: Service, step: Step, c: nat)
    requires PeersOk(s) && !step.Message? && !step.Dequeue? && !step.Sent? && c in After(s, step).peers
    ensures SameFlyingAt(s, After(s, step), c)
  {
    hide Queue, RoomTotal, PeerOk;
    match step
    case Connect(size, deadline) => QueueAppends(Connected(s, deadline), s.nextConn, Msg(size, Notice));
    case _ =>
  }

  lemma MessageOutgoing(s: Service, step: Step, c: nat)
    requires step.Message? && step.conn in s.peers && !s.peers[step.conn].left && c in After(s, step).peers
    ensures var t := After(s, step); Outgoing(t, c) == Outgoing(s, c) + Queued(s, t, c) && QueueOf(s, c) <= QueueOf(t, c)
  {
    hide InRoom, DoLookup, DoRegister, DoJoin, Queue, OnlyNotices;
    var k, q := step.conn, step.request;
    match s.peers[k].role
    case NoRole =>
      NoRoleNotices(s, k, step.now, step.allowed, q);
      NoRoleFlying(s, k, step.now, step.allowed, q);
      OutgoingGrows(s, After(s, step), c);
    case HostRole(route) => InRoomOutgoing(s, k, step.now, step.allowed, route, true, q, c);
    case GuestRole(route, _) => InRoomOutgoing(s, k, step.now, step.allowed, route, false, q, c);
  }

  /** Nobody's sending is interrupted. */
  ghost predicate SameFlying(s: Service, t: Service) {
    t.peers.Keys == s.peers.Keys && forall c :: c in s.peers ==> t.peers[c].flying == s.peers[c].flying
  }

  predicate SameFlyingAt(s: Service, t: Service, c: nat) {
    c in t.peers && t.peers[c].flying == if c in s.peers then s.peers[c].flying else None
  }

  lemma OutgoingGrows(s: Service, t: Service, c: nat)
    requires OnlyNotices(s, t) && SameFlyingAt(s, t, c)
    ensures Outgoing(t, c) == Outgoing(s, c) + Queued(s, t, c) && QueueOf(s, c) <= QueueOf(t, c)
  {
    hide OnlyNotices;
    GrownAt(s, t, c);
    assert QueueOf(t, c) == QueueOf(s, c) + Queued(s, t, c);
  }

  lemma GrownAt(s: Service, t: Service, c: nat)
    requires OnlyNotices(s, t) && c in t.peers
    ensures QueueOf(s, c) <= QueueOf(t, c)
  {
  }

  lemma QueueFlying(s: Service, c: nat, m: Msg)
    ensures SameFlying(s, Queue(s, c, m).service)
  {
  }

  lemma NoRoleFlying(s: Service, c: nat, now: real, allowed: bool, q: Request)
    requires c in s.peers && s.peers[c].role == NoRole
    ensures SameFlying(s, OnMessage(s, c, now, allowed, q).service)
  {
    hide Queue, DoJoin;
    match q
    case Lookup(route, reply) => QueueFlying(s.(peers := s.peers[c := s.peers[c].(lookup := Some(route))]), c, Msg(reply, Notice));
    case Register(route, _, size, expires, reply) =>
      QueueFlying(Registered(s, c, route, Room(c, size, Earlier(now + 60.0, expires), expires, map[], {})), c, Msg(reply, Notice));
    case Join(_, _, _, _, _, _, _, _) => JoinFlying(s, c, now, allowed, q);
    case _ =>
  }

  lemma JoinFlying(s: Service, c: nat, now: real, allowed: bool, q: Request)
    requires c in s.peers && q.Join?
    ensures SameFlying(s, DoJoin(s, c, now, allowed, q).service)
  {
    hide Queue;
    if q.route in s.rooms {
      var s1 := Joined(s, c, q.route, q.public, (q.public, q.nonce), Guest(c, q.size, q.expires, false, false));
      QueueFlying(s1, c, Msg(q.reply, Notice));
      QueueFlying(Queue(s1, c, Msg(q.reply, Notice)).service, s.rooms[q.route].conn, Msg(q.news, Notice));
    }
  }

  lemma InRoomOutgoing(s: Service, k: nat, now: real, allowed: bool, route: Route, host: bool, q: Request, c: nat)
    requires k in s.peers && c in InRoom(s, k, now, allowed, route, host, q).service.peers
    ensures var t := InRoom(s, k, now, allowed, route, host, q).service;
            Outgoing(t, c) == Outgoing(s, c) + Queued(s, t, c) && QueueOf(s, c) <= QueueOf(t, c)
  {
    hide Queue, RoomTotal, OnlyNotices, DoSetup;
    if q.Setup? {
      if route in s.rooms { SetupGoesTo(s, k, route, host, q); }
    } else {
      InRoomNotices(s, k, now, allowed, route, host, q);
      if q.Renew? && route in s.rooms {
        var renewed := s.rooms[route].(lease := Earlier(now + 60.0, s.rooms[route].expires));
        QueueFlying(s.(rooms := s.rooms[route := renewed]), k, Msg(q.reply, Notice));
      }
      OutgoingGrows(s, InRoom(s, k, now, allowed, route, host, q).service, c);
    }
  }

  lemma StepAccounted(s: Service, step: Step, log: seq<Relay>)
    requires PeersOk(s) && Accounted(s, log)
    ensures Accounted(After(s, step), log + Relayed(s, After(s, step)))
  {
    hide After, PeersOk, Passed, Relayed, Accepted, RightlyTo, Outgoing;
    var t := After(s, step);
    StepPasses(s, step);
    forall c, m | c in t.peers && m in Outgoing(t, c) && !m.kind.Notice? ensures Relay(c, m.kind) in log + Relayed(s, t) {
      StepOutgoing(s, step, c, m);
    }
  }

  lemma {:induction false} RunDelivers(limits: Limits, steps: seq<Step>)
    ensures var s := NewService(limits);
            && Kinds(Log(s, steps)) == AcceptedAll(s, steps)
            && Sited(AfterAll(s, steps), Places(s, steps)) && Addressed(Log(s, steps), Places(s, steps))
            && Accounted(AfterAll(s, steps), Log(s, steps))
  {
    hide After, Relayed, Accepted, Placed, Sited, Addressed, Accounted, RightlyTo, Passed;
    var s := NewService(limits);
    if |steps| == 0 {
      StartsEmpty(limits);
    } else {
      var k := |steps| - 1;
      var now := AfterAll(s, steps[..k]);
      RunDelivers(limits, steps[..k]);
      RunKeeps(limits, steps[..k]);
      StepPasses(now, steps[k]);
      StepSited(now, steps[k], Places(s, steps[..k]));
      StepAddressed(now, steps[k], Log(s, steps[..k]), Places(s, steps[..k]));
      StepAccounted(now, steps[k], Log(s, steps[..k]));
    }
  }

  lemma StartsEmpty(limits: Limits)
    ensures Sited(NewService(limits), {}) && Addressed([], {}) && Accounted(NewService(limits), [])
  {
  }

  // ------------------------------------------------------------ notices

  lemma HostSits(s: Service, route: Route)
    requires ServiceOk(s) && route in s.rooms
    ensures s.rooms[route].conn in s.peers && s.peers[s.rooms[route].conn].role == HostRole(route)
  {
    hide PeersOk, BytesOk;
    assert RoomOk(s, route, s.rooms[route]);
  }

  /** A guest that joins takes the guest's role and is told so, the room's host connection gets the news, and nobody
      else is sent anything. */
  lemma JoinTells(s: Service, c: nat, now: real, allowed: bool, q: Request)
    requires ServiceOk(s) && c in s.peers && s.peers[c].role == NoRole && q.Join? && DoJoin(s, c, now, allowed, q).ok
    ensures q.route in s.rooms
    ensures var t, host := DoJoin(s, c, now, allowed, q).service, s.rooms[q.route].conn;
            && host in s.peers && host != c && c in t.peers && t.peers[c].role == GuestRole(q.route, q.public) && !t.peers[c].active
            && QueueOf(t, c) == QueueOf(s, c) + [Msg(q.reply, Notice)] && QueueOf(t, host) == QueueOf(s, host) + [Msg(q.news, Notice)]
            && forall k :: k in s.peers && k != c && k != host ==> k in t.peers && t.peers[k] == s.peers[k]
  {
    hide Queue, ServiceOk, MayJoin;
    var host := s.rooms[q.route].conn;
    HostSits(s, q.route);
    var s1 := Joined(s, c, q.route, q.public, (q.public, q.nonce), Guest(c, q.size, q.expires, false, false));
    QueueAppends(s1, c, Msg(q.reply, Notice));
    QueueAppends(Queue(s1, c, Msg(q.reply, Notice)).service, host, Msg(q.news, Notice));
  }

  /** The other accepted requests are noted at the connection that made them, answered to it, and to nobody else. */
  lemma OthersTold(s: Service, c: nat, now: real, allowed: bool, q: Request)
    requires c in s.peers && OnMessage(s, c, now, allowed, q).ok && (q.Lookup? || q.Register? || q.Renew?)
    ensures var t := OnMessage(s, c, now, allowed, q).service;
            && c in t.peers && QueueOf(t, c) == QueueOf(s, c) + [Msg(q.reply, Notice)]
            && (q.Lookup? ==> t.peers[c].lookup == Some(q.route) && t.peers[c].role == NoRole)
            && (q.Register? ==> t.peers[c].role == HostRole(q.route) && !t.peers[c].active)
            && forall k :: k in s.peers && k != c ==> k in t.peers && t.peers[k] == s.peers[k]
  {
    hide Queue, DoJoin, DoSetup, RemoveRoom, RemoveGuest;
    match q
    case Lookup(route, reply) => QueueAppends(s.(peers := s.peers[c := s.peers[c].(lookup := Some(route))]), c, Msg(reply, Notice));
    case Register(route, _, size, expires, reply) =>
      QueueAppends(Registered(s, c, route, Room(c, size, Earlier(now + 60.0, expires), expires, map[], {})), c, Msg(reply, Notice));
    case Renew(reply) =>
      var route := s.peers[c].role.route;
      var renewed := s.rooms[route].(lease := Earlier(now + 60.0, s.rooms[route].expires));
      QueueAppends(s.(rooms := s.rooms[route := renewed]), c, Msg(reply, Notice));
  }

  /** Main result: over any steps, of all setup messages ever queued no guest connection is queued two offers and none has
      two answers passed on or one before its offer; every offer is queued for the guest it is for and every answer for
      the host connection of the room that guest took its one place in; and whatever setup message waits or is being sent
      to a connection was queued for it. */
  lemma RelaysReach(limits: Limits, steps: seq<Step>)
    ensures var s, log, places := AfterAll(NewService(limits), steps), Log(NewService(limits), steps), Places(NewService(limits), steps);
            && InTurn(Kinds(log)) && Addressed(log, places) && OnePlaceEach(places) && Accounted(s, log)
  {
    hide Log, Places, AfterAll, AcceptedAll, InTurn, Addressed, Accounted;
    RunDelivers(limits, steps);
    AcceptedInTurn(limits, steps);
  }
}
