/** What the introduction service retains and counts, over every run of it. */
module IntroductionAccounts {
  import opened MapSums
  import opened Settlement
  import opened Introduction

  // ------------------------------------------------- what every step keeps

  function Sizes(queue: seq<Msg>): (n: int) {
    if |queue| == 0 then 0 else queue[0].size + Sizes(queue[1..])
  }

  /** A peer's counters count what waits and what is being sent, within the limits. */
  predicate PeerOk(p: Peer, limits: Limits) {
    && p.count == |p.queue| + (if p.flying.Some? then 1 else 0) && p.count <= limits.queuedMessages
    && p.bytes == Sizes(p.queue) + (if p.flying.Some? then p.flying.value.size else 0) && p.bytes <= limits.queuedBytes
  }

  ghost predicate PeersOk(s: Service) {
    && (forall c :: c in s.peers ==> PeerOk(s.peers[c], s.limits) && c < s.nextConn && (s.peers[c].left ==> !s.peers[c].active))
    && s.challenges == |Active(s.peers)| <= s.limits.challenges
  }

  /** The bytes retained are those of the rooms, their guests and the peers' messages, within the limit. */
  ghost predicate BytesOk(s: Service) {
    s.retained == MapSum(RoomBytes(s.rooms)) + MapSum(PeerBytes(s.peers)) && s.retained <= s.limits.retained
  }

  /** A guest of a room is a connection in that role, and has answered only an offer. */
  predicate GuestOk(s: Service, route: Route, public: string, g: Guest) {
    && g.conn in s.peers && s.peers[g.conn].role == GuestRole(route, public) && !s.peers[g.conn].left
    && (g.answer ==> g.offer)
  }

  predicate RoomOk(s: Service, route: Route, room: Room) {
    && room.conn in s.peers && s.peers[room.conn].role == HostRole(route) && !s.peers[room.conn].left
    && |room.guests.Keys| <= s.limits.guests && |room.attempts| <= s.limits.attempts
    && forall public :: public in room.guests ==> GuestOk(s, route, public, room.guests[public])
  }

  ghost predicate RoomsOk(s: Service) {
    |s.rooms.Keys| <= s.limits.rooms && forall route :: route in s.rooms ==> RoomOk(s, route, s.rooms[route])
  }

  ghost predicate ServiceOk(s: Service) {
    PeersOk(s) && BytesOk(s) && RoomsOk(s)
  }

  // ----------------------------------------------------------- the bytes

  lemma PeerSet(peers: map<nat, Peer>, c: nat, p: Peer)
    ensures MapSum(PeerBytes(peers[c := p])) == MapSum(PeerBytes(peers)) - (if c in peers then peers[c].bytes else 0) + p.bytes
  {
    hide MapSum;
    MapSumSet(PeerBytes(peers), c, p.bytes);
    assert PeerBytes(peers[c := p]) == PeerBytes(peers)[c := p.bytes];
  }

  lemma PeerDrop(peers: map<nat, Peer>, c: nat)
    requires c in peers
    ensures MapSum(PeerBytes(peers - {c})) == MapSum(PeerBytes(peers)) - peers[c].bytes
  {
    hide MapSum;
    MapSumAt(PeerBytes(peers), c);
    assert PeerBytes(peers - {c}) == PeerBytes(peers) - {c};
  }

  lemma RoomSet(rooms: map<Route, Room>, route: Route, room: Room)
    ensures MapSum(RoomBytes(rooms[route := room]))
         == MapSum(RoomBytes(rooms)) - (if route in rooms then RoomTotal(rooms[route]) else 0) + RoomTotal(room)
  {
    hide MapSum, RoomTotal;
    MapSumSet(RoomBytes(rooms), route, RoomTotal(room));
    assert RoomBytes(rooms[route := room]) == RoomBytes(rooms)[route := RoomTotal(room)];
  }

  lemma RoomDrop(rooms: map<Route, Room>, route: Route)
    requires route in rooms
    ensures MapSum(RoomBytes(rooms - {route})) == MapSum(RoomBytes(rooms)) - RoomTotal(rooms[route])
  {
    hide MapSum, RoomTotal;
    MapSumAt(RoomBytes(rooms), route);
    assert RoomBytes(rooms - {route}) == RoomBytes(rooms) - {route};
  }

  lemma GuestSet(room: Room, public: string, guest: Guest)
    ensures var room1 := room.(guests := room.guests[public := guest]);
            RoomTotal(room1) == RoomTotal(room) - (if public in room.guests then room.guests[public].size else 0) + guest.size
  {
    hide MapSum;
    MapSumSet(GuestBytes(room.guests), public, guest.size);
    assert GuestBytes(room.guests[public := guest]) == GuestBytes(room.guests)[public := guest.size];
  }

  lemma GuestDrop(room: Room, public: string)
    requires public in room.guests
    ensures RoomTotal(room.(guests := room.guests - {public})) == RoomTotal(room) - room.guests[public].size
  {
    hide MapSum;
    MapSumAt(GuestBytes(room.guests), public);
    assert GuestBytes(room.guests - {public}) == GuestBytes(room.guests) - {public};
  }

  lemma QueueBytes(s: Service, c: nat, m: Msg)
    requires BytesOk(s)
    ensures BytesOk(Queue(s, c, m).service)
  {
    hide MapSum;
    if Queue(s, c, m).ok { PeerSet(s.peers, c, Queue(s, c, m).service.peers[c]); }
  }

  lemma RemoveGuestBytes(s: Service, route: Route, public: string)
    requires BytesOk(s) && route in s.rooms && public in s.rooms[route].guests
    ensures BytesOk(RemoveGuest(s, route, public))
  {
    hide MapSum, RoomTotal;
    var room := s.rooms[route];
    GuestDrop(room, public);
    RoomSet(s.rooms, route, room.(guests := room.guests - {public}));
  }

  lemma RemoveRoomBytes(s: Service, route: Route)
    requires BytesOk(s)
    ensures BytesOk(RemoveRoom(s, route))
  {
    hide MapSum;
    if route in s.rooms {
      RoomDrop(s.rooms, route);
      RoomNonneg(s.rooms[route]);
    }
  }

  lemma RoomNonneg(room: Room)
    ensures RoomTotal(room) >= 0
  {
    MapSumNonneg(GuestBytes(room.guests));
  }

  lemma RegisteredBytes(s: Service, c: nat, route: Route, room: Room)
    requires BytesOk(s) && c in s.peers && route !in s.rooms && room.guests == map[]
    requires s.retained + room.size <= s.limits.retained
    ensures BytesOk(Registered(s, c, route, room))
  {
    hide MapSum;
    PeerSet(s.peers, c, s.peers[c].(role := HostRole(route), active := false));
    RoomSet(s.rooms, route, room);
    MapSumNone(GuestBytes(room.guests));
  }

  lemma JoinedBytes(s: Service, c: nat, route: Route, public: string, attempt: (string, string), guest: Guest)
    requires BytesOk(s) && c in s.peers && route in s.rooms && public !in s.rooms[route].guests
    requires s.retained + guest.size <= s.limits.retained
    ensures BytesOk(Joined(s, c, route, public, attempt, guest))
  {
    hide MapSum;
    var room := s.rooms[route];
    PeerSet(s.peers, c, s.peers[c].(role := GuestRole(route, public), active := false));
    GuestSet(room, public, guest);
    RoomSet(s.rooms, route, room.(guests := room.guests[public := guest], attempts := room.attempts + {attempt}));
  }

  lemma FlagBytes(s: Service, route: Route, public: string, offer: bool)
    requires BytesOk(s)
    ensures BytesOk(Flag(s, route, public, offer))
  {
    hide MapSum;
    if route in s.rooms && public in s.rooms[route].guests {
      var room := s.rooms[route];
      var guest1 := Flagged(s, route, public, offer).rooms[route].guests[public];
      GuestSet(room, public, guest1);
      RoomSet(s.rooms, route, room.(guests := room.guests[public := guest1]));
    }
  }

  lemma LeaseBytes(s: Service, route: Route, lease: real)
    requires BytesOk(s) && route in s.rooms
    ensures BytesOk(s.(rooms := s.rooms[route := s.rooms[route].(lease := lease)]))
  {
    hide MapSum;
    RoomSet(s.rooms, route, s.rooms[route].(lease := lease));
  }

  /** A peer's other fields change nothing. */
  lemma PeerBytesSame(s: Service, c: nat, p: Peer, challenges: int)
    requires BytesOk(s) && c in s.peers && p.bytes == s.peers[c].bytes
    ensures BytesOk(s.(peers := s.peers[c := p], challenges := challenges))
  {
    hide MapSum;
    PeerSet(s.peers, c, p);
  }

  lemma FlownBytes(s: Service, c: nat)
    requires BytesOk(s) && c in s.peers && s.peers[c].flying.Some?
    ensures BytesOk(Flown(s, c))
  {
    hide MapSum;
    PeerSet(s.peers, c, Flown(s, c).peers[c]);
  }

  lemma DroppedBytes(s: Service, c: nat)
    requires BytesOk(s) && c in s.peers && s.peers[c].bytes >= 0
    ensures BytesOk(Dropped(s, c))
  {
    hide MapSum;
    PeerDrop(s.peers, c);
  }

  lemma ConnectedBytes(s: Service, deadline: real)
    requires BytesOk(s) && s.nextConn !in s.peers
    ensures BytesOk(Connected(s, deadline))
  {
    hide MapSum;
    PeerSet(s.peers, s.nextConn, Connected(s, deadline).peers[s.nextConn]);
  }

  // ------------------------------------------------------ peers and rooms

  /** A peer replaced by one with sound counters and the same challenge. */
  lemma PeerKept(s: Service, c: nat, p: Peer)
    requires PeersOk(s) && c in s.peers && PeerOk(p, s.limits) && p.active == s.peers[c].active && (p.left ==> !p.active)
    ensures PeersOk(s.(peers := s.peers[c := p]))
  {
    assert Active(s.peers[c := p]) == Active(s.peers);
  }

  /** A challenge given back. */
  lemma PeerConsumed(s: Service, c: nat, p: Peer)
    requires PeersOk(s) && c in s.peers && PeerOk(p, s.limits) && s.peers[c].active && !p.active
    ensures PeersOk(s.(peers := s.peers[c := p], challenges := s.challenges - 1))
  {
    assert Active(s.peers[c := p]) == Active(s.peers) - {c};
  }

  lemma PeerAdded(s: Service, deadline: real)
    requires PeersOk(s) && s.challenges < s.limits.challenges
    ensures s.nextConn !in s.peers && PeersOk(Connected(s, deadline))
  {
    assert Active(Connected(s, deadline).peers) == Active(s.peers) + {s.nextConn};
  }

  lemma PeerDropped(s: Service, c: nat)
    requires PeersOk(s) && c in s.peers && s.peers[c].left
    ensures PeersOk(Dropped(s, c))
  {
    assert Active(s.peers - {c}) == Active(s.peers);
  }

  lemma {:induction false} SizesMore(queue: seq<Msg>, m: Msg)
    ensures Sizes(queue + [m]) == Sizes(queue) + m.size
  {
    if |queue| > 0 {
      assert (queue + [m])[1..] == queue[1..] + [m];
      SizesMore(queue[1..], m);
    }
  }

  lemma {:induction false} SizesNonneg(queue: seq<Msg>)
    ensures Sizes(queue) >= 0
  {
    if |queue| > 0 { SizesNonneg(queue[1..]); }
  }

  /** A peer replaced by one with the same place in the service leaves the rooms as they were. */
  lemma RoomsKept(s: Service, c: nat, p: Peer)
    requires RoomsOk(s) && c in s.peers
    requires s.peers[c].role == NoRole || (p.role == s.peers[c].role && p.left == s.peers[c].left)
    ensures RoomsOk(s.(peers := s.peers[c := p]))
  {
    hide RoomOk;
    var s1 := s.(peers := s.peers[c := p]);
    forall route | route in s1.rooms ensures RoomOk(s1, route, s1.rooms[route]) {
      RoomStays(s, c, p, route, s.rooms[route]);
    }
  }

  lemma RoomStays(s: Service, c: nat, p: Peer, route: Route, room: Room)
    requires RoomOk(s, route, room) && c in s.peers
    requires s.peers[c].role == NoRole || (p.role == s.peers[c].role && p.left == s.peers[c].left)
    ensures RoomOk(s.(peers := s.peers[c := p]), route, room)
  {
    hide GuestOk;
    forall public | public in room.guests ensures GuestOk(s.(peers := s.peers[c := p]), route, public, room.guests[public]) {
      GuestStays(s, c, p, route, public, room.guests[public]);
    }
  }

  lemma GuestStays(s: Service, c: nat, p: Peer, route: Route, public: string, g: Guest)
    requires GuestOk(s, route, public, g) && c in s.peers
    requires s.peers[c].role == NoRole || (p.role == s.peers[c].role && p.left == s.peers[c].left)
    ensures GuestOk(s.(peers := s.peers[c := p]), route, public, g)
  {
  }

  /** One room replaced by a sound one. */
  lemma RoomKept(s: Service, route: Route, room: Room)
    requires RoomsOk(s) && route in s.rooms && RoomOk(s, route, room)
    ensures RoomsOk(s.(rooms := s.rooms[route := room]))
  {
    var s1 := s.(rooms := s.rooms[route := room]);
    assert s1.rooms.Keys == s.rooms.Keys;
    forall r | r in s1.rooms ensures RoomOk(s1, r, s1.rooms[r]) {
      if r != route { assert RoomOk(s, r, s.rooms[r]); }
      SamePeersRoom(s, s1, r, s1.rooms[r]);
    }
  }

  lemma SamePeersRoom(s: Service, t: Service, route: Route, room: Room)
    requires t.peers == s.peers && t.limits == s.limits
    ensures RoomOk(t, route, room) <==> RoomOk(s, route, room)
  {
    assert forall public :: public in room.guests ==>
             (GuestOk(s, route, public, room.guests[public]) <==> GuestOk(t, route, public, room.guests[public]));
  }

  lemma RoomDropped(s: Service, route: Route)
    requires RoomsOk(s) && route in s.rooms
    ensures RoomsOk(s.(rooms := s.rooms - {route}))
  {
    var s1 := s.(rooms := s.rooms - {route});
    assert s1.rooms.Keys == s.rooms.Keys - {route};
    forall r | r in s1.rooms ensures RoomOk(s1, r, s1.rooms[r]) {
      assert RoomOk(s, r, s.rooms[r]);
      SamePeersRoom(s, s1, r, s1.rooms[r]);
    }
  }

  lemma GuestDropped(s: Service, route: Route, public: string)
    requires RoomsOk(s) && route in s.rooms && public in s.rooms[route].guests
    ensures var room := s.rooms[route]; RoomOk(s, route, room.(guests := room.guests - {public}))
  {
    hide GuestOk;
    var room := s.rooms[route];
    assert RoomOk(s, route, room);
    assert (room.guests - {public}).Keys == room.guests.Keys - {public};
  }

  // ------------------------------------------------- what each part keeps

  lemma QueueKeeps(s: Service, c: nat, m: Msg)
    requires ServiceOk(s)
    ensures ServiceOk(Queue(s, c, m).service)
    ensures Queue(s, c, m).service.rooms == s.rooms && Queue(s, c, m).service.peers.Keys == s.peers.Keys
    ensures Queue(s, c, m).service.nextConn == s.nextConn
    ensures forall k :: k in s.peers ==> Queue(s, c, m).service.peers[k].role == s.peers[k].role
  {
    hide MapSum, RoomOk;
    QueueBytes(s, c, m);
    if Queue(s, c, m).ok {
      var p1 := Queue(s, c, m).service.peers[c];
      SizesMore(s.peers[c].queue, m);
      PeerKept(s, c, p1);
      RoomsKept(s, c, p1);
      SameRooms(s.(peers := s.peers[c := p1]), Queue(s, c, m).service);
    }
  }

  lemma RegisteredKeeps(s: Service, c: nat, route: Route, room: Room)
    requires ServiceOk(s) && c in s.peers && s.peers[c].active && s.peers[c].role == NoRole
    requires route !in s.rooms && |s.rooms.Keys| < s.limits.rooms && s.retained + room.size <= s.limits.retained
    requires room.conn == c && room.guests == map[] && room.attempts == {}
    ensures ServiceOk(Registered(s, c, route, room))
  {
    hide MapSum, RoomOk, PeerOk;
    var p := s.peers[c].(role := HostRole(route), active := false);
    RegisteredBytes(s, c, route, room);
    PeerFields(s.peers[c], p, s.limits);
    PeerConsumed(s, c, p);
    RoomsKept(s, c, p);
    NewRoomOk(s.(peers := s.peers[c := p]), route, room);
    RoomAdded(s.(peers := s.peers[c := p]), route, room);
    SameRooms(s.(peers := s.peers[c := p], rooms := s.rooms[route := room]), Registered(s, c, route, room));
  }

  lemma PeerFields(p: Peer, q: Peer, limits: Limits)
    requires q == p.(role := q.role, active := q.active, closed := q.closed, left := q.left, lookup := q.lookup)
    ensures PeerOk(p, limits) <==> PeerOk(q, limits)
  {
  }

  lemma NewRoomOk(s: Service, route: Route, room: Room)
    requires room.conn in s.peers && s.peers[room.conn].role == HostRole(route) && !s.peers[room.conn].left
    requires room.guests == map[] && room.attempts == {}
    ensures RoomOk(s, route, room)
  {
  }

  lemma RoomAdded(s: Service, route: Route, room: Room)
    requires RoomsOk(s) && route !in s.rooms && |s.rooms.Keys| < s.limits.rooms && RoomOk(s, route, room)
    ensures RoomsOk(s.(rooms := s.rooms[route := room]))
  {
    hide RoomOk;
    var s1 := s.(rooms := s.rooms[route := room]);
    assert s1.rooms.Keys == s.rooms.Keys + {route};
    forall r | r in s1.rooms ensures RoomOk(s1, r, s1.rooms[r]) {
      SamePeersRoom(s, s1, r, s1.rooms[r]);
    }
  }

  lemma JoinedKeeps(s: Service, c: nat, route: Route, public: string, attempt: (string, string), guest: Guest)
    requires ServiceOk(s) && c in s.peers && s.peers[c].active && s.peers[c].role == NoRole
    requires route in s.rooms && public !in s.rooms[route].guests && s.retained + guest.size <= s.limits.retained
    requires |s.rooms[route].attempts| < s.limits.attempts && |s.rooms[route].guests.Keys| < s.limits.guests
    requires guest.conn == c && !guest.offer && !guest.answer
    ensures ServiceOk(Joined(s, c, route, public, attempt, guest))
  {
    hide MapSum, RoomOk, PeerOk;
    var p, room := s.peers[c].(role := GuestRole(route, public), active := false), s.rooms[route];
    JoinedBytes(s, c, route, public, attempt, guest);
    PeerFields(s.peers[c], p, s.limits);
    PeerConsumed(s, c, p);
    RoomsKept(s, c, p);
    var s1 := s.(peers := s.peers[c := p]);
    GuestAdded(s1, route, public, attempt, guest);
    RoomKept(s1, route, room.(guests := room.guests[public := guest], attempts := room.attempts + {attempt}));
    SameRooms(s1.(rooms := Joined(s, c, route, public, attempt, guest).rooms), Joined(s, c, route, public, attempt, guest));
  }

  lemma GuestAdded(s: Service, route: Route, public: string, attempt: (string, string), guest: Guest)
    requires route in s.rooms && RoomOk(s, route, s.rooms[route]) && GuestOk(s, route, public, guest)
    requires |s.rooms[route].attempts| < s.limits.attempts && |s.rooms[route].guests.Keys| < s.limits.guests
    ensures var room := s.rooms[route];
            RoomOk(s, route, room.(guests := room.guests[public := guest], attempts := room.attempts + {attempt}))
  {
    hide GuestOk;
    var room := s.rooms[route];
    assert room.guests[public := guest].Keys == room.guests.Keys + {public};
  }

  lemma RemoveGuestKeeps(s: Service, route: Route, public: string)
    requires ServiceOk(s) && route in s.rooms && public in s.rooms[route].guests
    ensures ServiceOk(RemoveGuest(s, route, public))
  {
    hide MapSum, RoomOk;
    RemoveGuestBytes(s, route, public);
    GuestDropped(s, route, public);
    var room := s.rooms[route];
    RoomKept(s, route, room.(guests := room.guests - {public}));
    SameRooms(s.(rooms := RemoveGuest(s, route, public).rooms), RemoveGuest(s, route, public));
  }

  /** Only peers, rooms and limits matter to the rooms. */
  lemma SameRooms(s: Service, t: Service)
    requires RoomsOk(s) && t.peers == s.peers && t.rooms == s.rooms && t.limits == s.limits
    ensures RoomsOk(t)
  {
    hide RoomOk;
    forall r | r in t.rooms ensures RoomOk(t, r, t.rooms[r]) {
      SamePeersRoom(s, t, r, t.rooms[r]);
    }
  }

  lemma RemoveRoomKeeps(s: Service, route: Route)
    requires ServiceOk(s)
    ensures ServiceOk(RemoveRoom(s, route))
  {
    hide MapSum, RoomOk, RoomTotal;
    RemoveRoomBytes(s, route);
    if route in s.rooms {
      RoomDropped(s, route);
      SameRooms(s.(rooms := s.rooms - {route}), RemoveRoom(s, route));
    }
  }

  lemma FlagKeeps(s: Service, route: Route, public: string, offer: bool)
    requires ServiceOk(s) && route in s.rooms && public in s.rooms[route].guests
    requires offer || s.rooms[route].guests[public].offer
    ensures ServiceOk(Flag(s, route, public, offer))
  {
    hide MapSum, RoomOk;
    FlagBytes(s, route, public, offer);
    FlaggedOk(s, route, public, offer);
    RoomKept(s, route, Flagged(s, route, public, offer).rooms[route]);
  }

  lemma FlaggedOk(s: Service, route: Route, public: string, offer: bool)
    requires RoomsOk(s) && route in s.rooms && public in s.rooms[route].guests
    requires offer || s.rooms[route].guests[public].offer
    ensures RoomOk(s, route, Flagged(s, route, public, offer).rooms[route])
  {
    var room := s.rooms[route];
    var guest1 := Flagged(s, route, public, offer).rooms[route].guests[public];
    assert RoomOk(s, route, room) && GuestOk(s, route, public, room.guests[public]);
    assert GuestOk(s, route, public, guest1);
    GuestReplaced(s, route, public, guest1);
  }

  lemma GuestReplaced(s: Service, route: Route, public: string, guest: Guest)
    requires route in s.rooms && RoomOk(s, route, s.rooms[route]) && GuestOk(s, route, public, guest)
    requires public in s.rooms[route].guests
    ensures RoomOk(s, route, s.rooms[route].(guests := s.rooms[route].guests[public := guest]))
  {
    hide GuestOk;
    var room := s.rooms[route];
    assert room.guests[public := guest].Keys == room.guests.Keys;
  }

  lemma LeaseKeeps(s: Service, route: Route, lease: real)
    requires ServiceOk(s) && route in s.rooms
    ensures ServiceOk(s.(rooms := s.rooms[route := s.rooms[route].(lease := lease)]))
  {
    hide MapSum;
    LeaseBytes(s, route, lease);
    assert RoomOk(s, route, s.rooms[route]);
    RoomKept(s, route, s.rooms[route].(lease := lease));
  }

  lemma LeavingPeers(s: Service, c: nat)
    requires PeersOk(s) && BytesOk(s) && c in s.peers
    ensures PeersOk(Leaving(s, c)) && BytesOk(Leaving(s, c))
  {
    hide MapSum, PeerOk;
    var p := s.peers[c].(closed := true, left := true, active := false);
    PeerFields(s.peers[c], p, s.limits);
    PeerBytesSame(s, c, p, Leaving(s, c).challenges);
    if s.peers[c].active { PeerConsumed(s, c, p); } else { PeerKept(s, c, p); }
  }

  /** A room that does not name the leaving peer stays sound. */
  lemma UnnamedRoom(s: Service, c: nat, route: Route, room: Room)
    requires RoomOk(s, route, room) && c in s.peers && room.conn != c
    requires forall public :: public in room.guests ==> room.guests[public].conn != c
    ensures RoomOk(Leaving(s, c), route, room)
  {
    forall public | public in room.guests ensures GuestOk(Leaving(s, c), route, public, room.guests[public]) {
      assert GuestOk(s, route, public, room.guests[public]);
    }
  }

  /** A host's other rooms do not name it. */
  lemma HostRoomLeft(s: Service, c: nat, route: Route, r: Route)
    requires RoomsOk(s) && c in s.peers && s.peers[c].role == HostRole(route) && r in s.rooms && r != route
    ensures RoomOk(Leaving(s, c), r, s.rooms[r])
  {
    assert RoomOk(s, r, s.rooms[r]);
    assert forall public :: public in s.rooms[r].guests ==> GuestOk(s, r, public, s.rooms[r].guests[public]);
    UnnamedRoom(s, c, r, s.rooms[r]);
  }

  lemma HostLeft(s: Service, c: nat, route: Route)
    requires RoomsOk(s) && c in s.peers && s.peers[c].role == HostRole(route)
    ensures RoomsOk(RemoveRoom(Leaving(s, c), route))
  {
    hide RoomTotal, RoomOk;
    var t := RemoveRoom(Leaving(s, c), route);
    assert t.rooms.Keys == s.rooms.Keys - {route};
    forall r | r in t.rooms ensures RoomOk(t, r, t.rooms[r]) {
      HostRoomLeft(s, c, route, r);
      SamePeersRoom(Leaving(s, c), t, r, s.rooms[r]);
    }
  }

  lemma NobodyLeft(s: Service, c: nat)
    requires RoomsOk(s) && c in s.peers && s.peers[c].role == NoRole
    ensures RoomsOk(Leaving(s, c))
  {
    RoomsKept(s, c, s.peers[c].(closed := true, left := true, active := false));
    SameRooms(s.(peers := Leaving(s, c).peers), Leaving(s, c));
  }

  predicate Places(s: Service, c: nat, route: Route, public: string) {
    route in s.rooms && public in s.rooms[route].guests && s.rooms[route].guests[public].conn == c
  }

  lemma GuestRoomLeft(s: Service, c: nat, route: Route, public: string, r: Route)
    requires RoomsOk(s) && c in s.peers && s.peers[c].role == GuestRole(route, public) && r in s.rooms
    ensures var room := s.rooms[r];
            RoomOk(Leaving(s, c), r, if r == route && Places(s, c, route, public) then room.(guests := room.guests - {public}) else room)
  {
    var room := s.rooms[r];
    assert RoomOk(s, r, room);
    assert forall k :: k in room.guests ==> GuestOk(s, r, k, room.guests[k]);
    if r == route && Places(s, c, route, public) {
      GuestDropped(s, route, public);
      UnnamedRoom(s, c, r, room.(guests := room.guests - {public}));
    } else {
      UnnamedRoom(s, c, r, room);
    }
  }

  lemma GuestLeft(s: Service, c: nat, route: Route, public: string)
    requires RoomsOk(s) && c in s.peers && s.peers[c].role == GuestRole(route, public)
    ensures var t := Leaving(s, c);
            RoomsOk(if Places(t, c, route, public) then RemoveGuest(t, route, public) else t)
  {
    hide RoomOk;
    var t := Leaving(s, c);
    var u := if Places(t, c, route, public) then RemoveGuest(t, route, public) else t;
    assert u.rooms.Keys == s.rooms.Keys;
    forall r | r in u.rooms ensures RoomOk(u, r, u.rooms[r]) {
      GuestRoomLeft(s, c, route, public, r);
      SamePeersRoom(t, u, r, u.rooms[r]);
    }
  }

  lemma LeftKeeps(s: Service, c: nat)
    requires ServiceOk(s) && c in s.peers
    ensures ServiceOk(Left(s, c))
  {
    hide MapSum, RoomOk, RoomTotal, PeerOk;
    var t := Leaving(s, c);
    LeavingPeers(s, c);
    match s.peers[c].role
    case NoRole => NobodyLeft(s, c);
    case HostRole(route) =>
      HostLeft(s, c, route);
      RemoveRoomBytes(t, route);
    case GuestRole(route, public) =>
      GuestLeft(s, c, route, public);
      if Places(t, c, route, public) { RemoveGuestBytes(t, route, public); }
  }

  lemma DroppedKeeps(s: Service, c: nat)
    requires ServiceOk(s) && c in s.peers && s.peers[c].left
    ensures ServiceOk(Dropped(s, c))
  {
    hide MapSum, RoomOk;
    PeerDropped(s, c);
    SizesNonneg(s.peers[c].queue);
    DroppedBytes(s, c);
    var t := Dropped(s, c);
    forall r | r in t.rooms ensures RoomOk(t, r, t.rooms[r]) {
      RoomWithout(s, c, r, s.rooms[r]);
    }
  }

  lemma RoomWithout(s: Service, c: nat, route: Route, room: Room)
    requires RoomOk(s, route, room) && c in s.peers && s.peers[c].left
    ensures RoomOk(Dropped(s, c), route, room)
  {
    forall k | k in room.guests ensures GuestOk(Dropped(s, c), route, k, room.guests[k]) {
      assert GuestOk(s, route, k, room.guests[k]);
    }
  }

  // ------------------------------------------------ every step, every run

  lemma PeerNoted(s: Service, c: nat, p: Peer)
    requires ServiceOk(s) && c in s.peers && p == s.peers[c].(lookup := p.lookup, closed := p.closed)
    ensures ServiceOk(s.(peers := s.peers[c := p]))
  {
    hide MapSum, RoomOk, PeerOk;
    PeerFields(s.peers[c], p, s.limits);
    PeerKept(s, c, p);
    PeerBytesSame(s, c, p, s.challenges);
    RoomsKept(s, c, p);
  }

  lemma LookupKeeps(s: Service, c: nat, now: real, allowed: bool, route: Route, reply: nat)
    requires ServiceOk(s) && c in s.peers
    ensures ServiceOk(DoLookup(s, c, now, allowed, route, reply).service)
  {
    hide ServiceOk, Queue;
    var p := s.peers[c].(lookup := Some(route));
    PeerNoted(s, c, p);
    QueueKeeps(s.(peers := s.peers[c := p]), c, Msg(reply, Notice));
  }

  lemma RegisterKeeps(s: Service, c: nat, now: real, allowed: bool, q: Request)
    requires ServiceOk(s) && c in s.peers && q.Register? && s.peers[c].role == NoRole
    ensures ServiceOk(DoRegister(s, c, now, allowed, q).service)
  {
    hide ServiceOk, Queue, Registered;
    if Answers(s.peers[c], now, q.verified) && allowed && q.route !in s.rooms && |s.rooms.Keys| < s.limits.rooms
       && s.retained + q.size <= s.limits.retained
    {
      var room := Room(c, q.size, Earlier(now + 60.0, q.expires), q.expires, map[], {});
      RegisteredKeeps(s, c, q.route, room);
      QueueKeeps(Registered(s, c, q.route, room), c, Msg(q.reply, Notice));
    }
  }

  lemma JoinKeeps(s: Service, c: nat, now: real, allowed: bool, q: Request)
    requires ServiceOk(s) && c in s.peers && q.Join? && s.peers[c].role == NoRole
    ensures ServiceOk(DoJoin(s, c, now, allowed, q).service)
  {
    hide ServiceOk, Queue, Joined;
    if q.route in s.rooms && Answers(s.peers[c], now, q.verified) && MayJoin(s, c, q) {
      var guest := Guest(c, q.size, q.expires, false, false);
      var s1 := Joined(s, c, q.route, q.public, (q.public, q.nonce), guest);
      JoinedKeeps(s, c, q.route, q.public, (q.public, q.nonce), guest);
      QueueKeeps(s1, c, Msg(q.reply, Notice));
      QueueKeeps(Queue(s1, c, Msg(q.reply, Notice)).service, s.rooms[q.route].conn, Msg(q.news, Notice));
    }
  }

  lemma SetupKeeps(s: Service, c: nat, route: Route, host: bool, q: Request)
    requires ServiceOk(s) && q.Setup? && route in s.rooms
    ensures ServiceOk(DoSetup(s, c, route, host, q).service)
  {
    hide ServiceOk, Queue, Flag;
    if q.public in s.rooms[route].guests {
      var room, guest := s.rooms[route], s.rooms[route].guests[q.public];
      var to, m := if host then guest.conn else room.conn, Msg(q.size, if host then Offer(guest.conn) else Answer(guest.conn));
      QueueKeeps(s, to, m);
      if host || guest.offer { FlagKeeps(Queue(s, to, m).service, route, q.public, host); }
    }
  }

  lemma InRoomKeeps(s: Service, c: nat, now: real, allowed: bool, route: Route, host: bool, q: Request)
    requires ServiceOk(s) && c in s.peers
    ensures ServiceOk(InRoom(s, c, now, allowed, route, host, q).service)
  {
    hide ServiceOk, Queue, DoSetup, RemoveRoom, RemoveGuest;
    if route in s.rooms {
      match q
      case Renew(reply) =>
        var lease := Earlier(now + 60.0, s.rooms[route].expires);
        LeaseKeeps(s, route, lease);
        QueueKeeps(s.(rooms := s.rooms[route := s.rooms[route].(lease := lease)]), c, Msg(reply, Notice));
      case Shut => RemoveRoomKeeps(s, route);
      case Reject(public) => if public in s.rooms[route].guests { RemoveGuestKeeps(s, route, public); }
      case Setup(_, _, _) => SetupKeeps(s, c, route, host, q);
      case _ =>
    }
  }

  lemma MessageKeeps(s: Service, c: nat, now: real, allowed: bool, q: Request)
    requires ServiceOk(s) && c in s.peers
    ensures ServiceOk(OnMessage(s, c, now, allowed, q).service)
  {
    hide ServiceOk, DoLookup, DoRegister, DoJoin, InRoom;
    match s.peers[c].role
    case NoRole =>
      match q {
        case Lookup(route, reply) => LookupKeeps(s, c, now, allowed, route, reply);
        case Register(_, _, _, _, _) => RegisterKeeps(s, c, now, allowed, q);
        case Join(_, _, _, _, _, _, _, _) => JoinKeeps(s, c, now, allowed, q);
        case _ =>
      }
    case HostRole(route) => InRoomKeeps(s, c, now, allowed, route, true, q);
    case GuestRole(route, _) => InRoomKeeps(s, c, now, allowed, route, false, q);
  }

  lemma ConnectKeeps(s: Service, size: nat, deadline: real)
    requires ServiceOk(s) && s.challenges < s.limits.challenges
    ensures ServiceOk(Connected(s, deadline))
  {
    hide MapSum, PeerOk;
    PeerAdded(s, deadline);
    ConnectedBytes(s, deadline);
    var t := Connected(s, deadline);
    forall r | r in t.rooms ensures RoomOk(t, r, t.rooms[r]) {
      NewPeerRoom(s, deadline, r, s.rooms[r]);
    }
  }

  lemma NewPeerRoom(s: Service, deadline: real, route: Route, room: Room)
    requires RoomOk(s, route, room) && s.nextConn !in s.peers
    ensures RoomOk(Connected(s, deadline), route, room)
  {
    forall k | k in room.guests ensures GuestOk(Connected(s, deadline), route, k, room.guests[k]) {
      assert GuestOk(s, route, k, room.guests[k]);
    }
  }

  lemma DequeuedKeeps(s: Service, c: nat)
    requires ServiceOk(s) && c in s.peers && s.peers[c].flying.None? && s.peers[c].queue != []
    ensures ServiceOk(Dequeued(s, c))
  {
    hide MapSum, RoomOk;
    var p := Dequeued(s, c).peers[c];
    PeerKept(s, c, p);
    PeerBytesSame(s, c, p, s.challenges);
    RoomsKept(s, c, p);
  }

  lemma FlownKeeps(s: Service, c: nat)
    requires ServiceOk(s) && c in s.peers && s.peers[c].flying.Some?
    ensures ServiceOk(Flown(s, c))
  {
    hide MapSum, RoomOk;
    var p := Flown(s, c).peers[c];
    FlownBytes(s, c);
    PeerKept(s, c, p);
    RoomsKept(s, c, p);
    SameRooms(s.(peers := s.peers[c := p]), Flown(s, c));
  }

  /** Every step keeps the bytes retained, the challenges, the queues and the rooms in order and within their limits. */
  lemma StepKeeps(s: Service, step: Step)
    requires ServiceOk(s)
    ensures ServiceOk(After(s, step))
  {
    hide ServiceOk, OnMessage, Queue, Connected, Left, Dropped, RemoveRoom, RemoveGuest, Flown, Dequeued;
    match step
    case Connect(size, deadline) =>
      if s.challenges < s.limits.challenges {
        ConnectKeeps(s, size, deadline);
        QueueKeeps(Connected(s, deadline), s.nextConn, Msg(size, Notice));
      }
    case Message(c, now, allowed, q) => if c in s.peers { MessageKeeps(s, c, now, allowed, q); }
    case Dequeue(c) => if c in s.peers && s.peers[c].flying.None? && s.peers[c].queue != [] { DequeuedKeeps(s, c); }
    case Sent(c) => if c in s.peers && s.peers[c].flying.Some? { FlownKeeps(s, c); }
    case Leave(c) => if c in s.peers { LeftKeeps(s, c); }
    case Gone(c) => if c in s.peers && s.peers[c].left { DroppedKeeps(s, c); }
    case ExpirePeer(c, now) => if c in s.peers { PeerNoted(s, c, s.peers[c].(closed := true)); }
    case ExpireRoom(route, now) => RemoveRoomKeeps(s, route);
    case ExpireGuest(route, public, now) =>
      if route in s.rooms && public in s.rooms[route].guests { RemoveGuestKeeps(s, route, public); }
  }

  function NewService(limits: Limits): (s: Service) {
    Service(limits, map[], map[], 0, 0, 0)
  }

  ghost function AfterAll(s: Service, steps: seq<Step>): (r: Service) {
    if |steps| == 0 then s else After(AfterAll(s, steps[..|steps| - 1]), steps[|steps| - 1])
  }

  lemma NewOk(limits: Limits)
    ensures ServiceOk(NewService(limits))
  {
    hide MapSum;
    var s := NewService(limits);
    MapSumNone(RoomBytes(s.rooms));
    MapSumNone(PeerBytes(s.peers));
    assert Active(s.peers) == {};
  }

  lemma {:induction false} RunKeeps(limits: Limits, steps: seq<Step>)
    ensures ServiceOk(AfterAll(NewService(limits), steps))
  {
    hide ServiceOk, After;
    if |steps| == 0 {
      NewOk(limits);
    } else {
      RunKeeps(limits, steps[..|steps| - 1]);
      StepKeeps(AfterAll(NewService(limits), steps[..|steps| - 1]), steps[|steps| - 1]);
    }
  }

  lemma HostsConnected(s: Service)
    requires RoomsOk(s)
    ensures forall r :: r in s.rooms ==> s.rooms[r].conn in s.peers
  {
    forall r | r in s.rooms ensures s.rooms[r].conn in s.peers {
      assert RoomOk(s, r, s.rooms[r]);
    }
  }

  /** Main result: after any steps in any order the bytes counted are those retained and within the limit, the challenges
      counted are those open, and with nobody connected nothing is left: no bytes, no challenge, no room. */
  lemma RunAccounts(limits: Limits, steps: seq<Step>)
    ensures var s := AfterAll(NewService(limits), steps);
            && s.retained == MapSum(RoomBytes(s.rooms)) + MapSum(PeerBytes(s.peers)) <= s.limits.retained
            && s.challenges == |Active(s.peers)| <= s.limits.challenges
            && |s.rooms.Keys| <= s.limits.rooms
            && (forall c :: c in s.peers ==> s.peers[c].count <= s.limits.queuedMessages && s.peers[c].bytes <= s.limits.queuedBytes)
            && (s.peers == map[] ==> s.retained == 0 && s.challenges == 0 && s.rooms == map[])
  {
    hide MapSum, AfterAll;
    RunKeeps(limits, steps);
    var s := AfterAll(NewService(limits), steps);
    HostsConnected(s);
    if s.peers == map[] {
      assert s.rooms == map[];
      MapSumNone(RoomBytes(s.rooms));
      MapSumNone(PeerBytes(s.peers));
      assert Active(s.peers) == {};
    }
  }
}
