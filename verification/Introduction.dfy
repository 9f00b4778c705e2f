/** The introduction service (holdem/introduction_service.py) as a state machine over its atomic steps. */
module Introduction {
  import opened MapSums
  import opened Settlement

  datatype Route = Route(host: string, token: string, generation: string)

  /** A message waiting to be sent: a notice of the service's own, or a relayed setup message of the guest on `conn`. */
  datatype Kind = Notice | Offer(conn: nat) | Answer(conn: nat)

  datatype Msg = Msg(size: nat, kind: Kind)

  datatype Role = NoRole | HostRole(route: Route) | GuestRole(route: Route, public: string)

  /** A connection: what waits for it, what is being sent, its role, and whether its challenge is still open. */
  datatype Peer = Peer(
    queue: seq<Msg>, flying: Option<Msg>, count: int, bytes: int, role: Role, lookup: Option<Route>,
    active: bool, closed: bool, left: bool, deadline: real)

  datatype Guest = Guest(conn: nat, size: nat, expires: real, offer: bool, answer: bool)

  datatype Room = Room(
    conn: nat, size: nat, lease: real, expires: real, guests: map<string, Guest>, attempts: set<(string, string)>)

  datatype Limits = Limits(
    rooms: nat, challenges: nat, guests: nat, retained: nat, message: nat, queuedMessages: nat, queuedBytes: nat,
    attempts: nat)

  datatype Service = Service(
    limits: Limits, peers: map<nat, Peer>, rooms: map<Route, Room>, challenges: int, retained: int, nextConn: nat)

  /** The state a call leaves, and whether it went through. */
  datatype Ran = Ran(service: Service, ok: bool)

  // ------------------------------------------------------------- helpers

  predicate Live(room: Room, now: real) {
    now < room.lease && now < room.expires
  }

  function Earlier(a: real, b: real): real {
    if a <= b then a else b
  }

  function GuestBytes(guests: map<string, Guest>): (m: map<string, int>) {
    map g | g in guests :: guests[g].size
  }

  ghost function RoomTotal(room: Room): (t: int) {
    room.size + MapSum(GuestBytes(room.guests))
  }

  ghost function RoomBytes(rooms: map<Route, Room>): (m: map<Route, int>) {
    map r | r in rooms :: RoomTotal(rooms[r])
  }

  function PeerBytes(peers: map<nat, Peer>): (m: map<nat, int>) {
    map c | c in peers :: peers[c].bytes
  }

  function Active(peers: map<nat, Peer>): (r: set<nat>) {
    set c | c in peers && peers[c].active
  }

  // ----------------------------------------------------- the steps' parts

  /** `_queue`, with its `_reserve`. */
  function Queue(s: Service, c: nat, m: Msg): (r: Ran) {
    if c !in s.peers then Ran(s, false)
    else
      var p := s.peers[c];
      if p.closed || m.size > s.limits.message || p.count >= s.limits.queuedMessages
         || p.bytes + m.size > s.limits.queuedBytes || s.retained + m.size > s.limits.retained then Ran(s, false)
      else
        var p1 := p.(queue := p.queue + [m], count := p.count + 1, bytes := p.bytes + m.size);
        Ran(s.(peers := s.peers[c := p1], retained := s.retained + m.size), true)
  }

  function RemoveGuest(s: Service, route: Route, public: string): (r: Service)
    requires route in s.rooms && public in s.rooms[route].guests
  {
    var room := s.rooms[route];
    s.(rooms := s.rooms[route := room.(guests := room.guests - {public})], retained := s.retained - room.guests[public].size)
  }

  /** `_remove_room`: the room and every guest in it, whoever its host is. */
  ghost function RemoveRoom(s: Service, route: Route): (r: Service) {
    if route !in s.rooms then s
    else s.(rooms := s.rooms - {route}, retained := s.retained - RoomTotal(s.rooms[route]))
  }

  function Registered(s: Service, c: nat, route: Route, room: Room): (r: Service)
    requires c in s.peers
  {
    s.(rooms := s.rooms[route := room], retained := s.retained + room.size, challenges := s.challenges - 1,
       peers := s.peers[c := s.peers[c].(role := HostRole(route), active := false)])
  }

  function Joined(s: Service, c: nat, route: Route, public: string, attempt: (string, string), guest: Guest): (r: Service)
    requires c in s.peers && route in s.rooms
  {
    var room := s.rooms[route];
    s.(rooms := s.rooms[route := room.(guests := room.guests[public := guest], attempts := room.attempts + {attempt})],
       retained := s.retained + guest.size, challenges := s.challenges - 1,
       peers := s.peers[c := s.peers[c].(role := GuestRole(route, public), active := false)])
  }

  function Flagged(s: Service, route: Route, public: string, offer: bool): (r: Service)
    requires route in s.rooms && public in s.rooms[route].guests
  {
    var room := s.rooms[route];
    s.(rooms := s.rooms[route := room.(guests := room.guests[public := FlaggedGuest(room.guests[public], offer)])])
  }

  function FlaggedGuest(g: Guest, offer: bool): (r: Guest) {
    if offer then g.(offer := true) else g.(answer := true)
  }

  // ----------------------------------------------------------- messages

  datatype Request =
    | Lookup(route: Route, reply: nat)
    | Register(route: Route, verified: bool, size: nat, expires: real, reply: nat)
    | Join(route: Route, public: string, nonce: string, verified: bool, size: nat, expires: real, reply: nat, news: nat)
    | Renew(reply: nat)
    | Shut
    | Reject(public: string)
    | Setup(public: string, verified: bool, size: nat)

  /** The challenge is answered in time. */
  predicate Answers(p: Peer, now: real, verified: bool) {
    verified && p.active && now < p.deadline
  }

  function DoLookup(s: Service, c: nat, now: real, allowed: bool, route: Route, reply: nat): (r: Ran)
    requires c in s.peers
  {
    if route !in s.rooms || !Live(s.rooms[route], now) || !allowed then Ran(s, false)
    else Queue(s.(peers := s.peers[c := s.peers[c].(lookup := Some(route))]), c, Msg(reply, Notice))
  }

  function DoRegister(s: Service, c: nat, now: real, allowed: bool, q: Request): (r: Ran)
    requires c in s.peers && q.Register?
  {
    if !Answers(s.peers[c], now, q.verified) || !allowed || q.route in s.rooms || |s.rooms.Keys| >= s.limits.rooms
       || s.retained + q.size > s.limits.retained then Ran(s, false)
    else
      var room := Room(c, q.size, Earlier(now + 60.0, q.expires), q.expires, map[], {});
      Queue(Registered(s, c, q.route, room), c, Msg(q.reply, Notice))
  }

  predicate MayJoin(s: Service, c: nat, q: Request)
    requires c in s.peers && q.Join? && q.route in s.rooms
  {
    var room := s.rooms[q.route];
    && s.peers[c].lookup == Some(q.route) && q.public != q.route.host && q.expires <= room.expires
    && q.public !in room.guests && (q.public, q.nonce) !in room.attempts
    && |room.attempts| < s.limits.attempts && |room.guests.Keys| < s.limits.guests
    && s.retained + q.size <= s.limits.retained
  }

  function DoJoin(s: Service, c: nat, now: real, allowed: bool, q: Request): (r: Ran)
    requires c in s.peers && q.Join?
  {
    if !Answers(s.peers[c], now, q.verified) || q.route !in s.rooms || !Live(s.rooms[q.route], now) || !allowed
       || !MayJoin(s, c, q) then Ran(s, false)
    else
      var s1 := Joined(s, c, q.route, q.public, (q.public, q.nonce), Guest(c, q.size, q.expires, false, false));
      var sent := Queue(s1, c, Msg(q.reply, Notice));
      if sent.ok then Queue(sent.service, s.rooms[q.route].conn, Msg(q.news, Notice)) else sent
  }

  /** One offer to the guest, then one answer from it, each relayed once. */
  function DoSetup(s: Service, c: nat, route: Route, host: bool, q: Request): (r: Ran)
    requires q.Setup? && route in s.rooms
  {
    var room := s.rooms[route];
    if q.public !in room.guests then Ran(s, false)
    else
      var guest := room.guests[q.public];
      if (!host && guest.conn != c) || (if host then guest.offer else guest.answer || !guest.offer) || !q.verified then Ran(s, false)
      else
        var m := Msg(q.size, if host then Offer(guest.conn) else Answer(guest.conn));
        var sent := Queue(s, if host then guest.conn else room.conn, m);
        if sent.ok then Ran(Flag(sent.service, route, q.public, host), true) else sent
  }

  /** The flag, once the message is queued. */
  function Flag(s: Service, route: Route, public: string, offer: bool): (r: Service) {
    if route in s.rooms && public in s.rooms[route].guests then Flagged(s, route, public, offer) else s
  }

  /** `_message` for a peer with a role. */
  ghost function InRoom(s: Service, c: nat, now: real, allowed: bool, route: Route, host: bool, q: Request): (r: Ran)
    requires c in s.peers
  {
    if route !in s.rooms || !Live(s.rooms[route], now) || !allowed then Ran(s, false)
    else
      var room := s.rooms[route];
      match q
      case Renew(reply) =>
        if !host then Ran(s, false)
        else Queue(s.(rooms := s.rooms[route := room.(lease := Earlier(now + 60.0, room.expires))]), c, Msg(reply, Notice))
      case Shut => if !host then Ran(s, false) else Ran(RemoveRoom(s, route), true)
      case Reject(public) =>
        if !host then Ran(s, false)
        else if public !in room.guests then Ran(s, true)
        else Ran(RemoveGuest(s, route, public), true)
      case Setup(_, _, _) => DoSetup(s, c, route, host, q)
      case _ => Ran(s, false)
  }

  /** `_message`: what it leaves, also when it is refused part of the way. */
  ghost function OnMessage(s: Service, c: nat, now: real, allowed: bool, q: Request): (r: Ran)
    requires c in s.peers
  {
    match s.peers[c].role
    case NoRole =>
      (match q
       case Lookup(route, reply) => DoLookup(s, c, now, allowed, route, reply)
       case Register(_, _, _, _, _) => DoRegister(s, c, now, allowed, q)
       case Join(_, _, _, _, _, _, _, _) => DoJoin(s, c, now, allowed, q)
       case _ => Ran(s, false))
    case HostRole(route) => InRoom(s, c, now, allowed, route, true, q)
    case GuestRole(route, _) => InRoom(s, c, now, allowed, route, false, q)
  }

  // -------------------------------------------------------------- steps

  /** Everything that can happen between two waits of the service. */
  datatype Step =
    | Connect(size: nat, deadline: real)
    | Message(conn: nat, now: real, allowed: bool, request: Request)
    | Dequeue(conn: nat)
    | Sent(conn: nat)
    | Leave(conn: nat)
    | Gone(conn: nat)
    | ExpirePeer(conn: nat, now: real)
    | ExpireRoom(route: Route, now: real)
    | ExpireGuest(route: Route, public: string, now: real)

  function Connected(s: Service, deadline: real): (r: Service) {
    s.(peers := s.peers[s.nextConn := Peer([], None, 0, 0, NoRole, None, true, false, false, deadline)],
       challenges := s.challenges + 1, nextConn := s.nextConn + 1)
  }

  function Dequeued(s: Service, c: nat): (r: Service)
    requires c in s.peers && s.peers[c].flying.None? && s.peers[c].queue != []
  {
    s.(peers := s.peers[c := s.peers[c].(flying := Some(s.peers[c].queue[0]), queue := s.peers[c].queue[1..])])
  }

  function Flown(s: Service, c: nat): (r: Service)
    requires c in s.peers && s.peers[c].flying.Some?
  {
    var p, size := s.peers[c], s.peers[c].flying.value.size;
    s.(peers := s.peers[c := p.(flying := None, count := p.count - 1, bytes := p.bytes - size)], retained := s.retained - size)
  }

  /** The peer has begun to leave: only its own room or place may still name it. */
  function Leaving(s: Service, c: nat): (r: Service)
    requires c in s.peers
  {
    s.(peers := s.peers[c := s.peers[c].(closed := true, left := true, active := false)],
       challenges := s.challenges - (if s.peers[c].active then 1 else 0))
  }

  /** `_detach` up to its wait: the challenge given back, the room or the guest's place removed. */
  ghost function Left(s: Service, c: nat): (r: Service)
    requires c in s.peers
  {
    var s1 := Leaving(s, c);
    match s.peers[c].role
    case NoRole => s1
    case HostRole(route) => RemoveRoom(s1, route)
    case GuestRole(route, public) =>
      if route in s1.rooms && public in s1.rooms[route].guests && s1.rooms[route].guests[public].conn == c
      then RemoveGuest(s1, route, public) else s1
  }

  /** The rest of `_detach`: what was queued or being sent is dropped with the connection. */
  function Dropped(s: Service, c: nat): (r: Service)
    requires c in s.peers
  {
    s.(peers := s.peers - {c}, retained := s.retained - s.peers[c].bytes)
  }

  /** The state after a step; a step that cannot happen leaves it. */
  ghost function After(s: Service, step: Step): (r: Service) {
    match step
    case Connect(size, deadline) =>
      if s.challenges >= s.limits.challenges then s else Queue(Connected(s, deadline), s.nextConn, Msg(size, Notice)).service
    case Message(c, now, allowed, q) =>
      if c !in s.peers || s.peers[c].left then s else OnMessage(s, c, now, allowed, q).service
    case Dequeue(c) => if c in s.peers && s.peers[c].flying.None? && s.peers[c].queue != [] then Dequeued(s, c) else s
    case Sent(c) => if c in s.peers && s.peers[c].flying.Some? then Flown(s, c) else s
    case Leave(c) => if c in s.peers && !s.peers[c].left then Left(s, c) else s
    case Gone(c) => if c in s.peers && s.peers[c].left then Dropped(s, c) else s
    case ExpirePeer(c, now) =>
      if c in s.peers && s.peers[c].active && now >= s.peers[c].deadline
      then s.(peers := s.peers[c := s.peers[c].(closed := true)]) else s
    case ExpireRoom(route, now) => if route in s.rooms && !Live(s.rooms[route], now) then RemoveRoom(s, route) else s
    case ExpireGuest(route, public, now) =>
      if route in s.rooms && public in s.rooms[route].guests && now >= s.rooms[route].guests[public].expires
      then RemoveGuest(s, route, public) else s
  }
}
