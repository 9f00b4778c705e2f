/** The request limits of the introduction service (`_allow`, `_maintain` in holdem/introduction_service.py). */
module RateLimit {
  import opened Sets

  datatype Category = Connect | IpMessage | Lookup | Host | RoomJoin | Guest | RoomMessage | GuestMessage

  datatype Key = Key(category: Category, id: string)

  /** Tokens left, and when they were counted. */
  datatype Bucket = Bucket(tokens: real, at: real)

  type Rates = map<Key, Bucket>

  const IDLE: real := 300.0

  function Capacity(c: Category): (cap: real) {
    match c
    case Connect => 30.0
    case IpMessage => 120.0
    case Lookup => 30.0
    case Host => 4.0
    case RoomJoin => 16.0
    case Guest => 4.0
    case RoomMessage => 80.0
    case GuestMessage => 12.0
  }

  /** Tokens a second. */
  function Refill(c: Category): (r: real) {
    match c
    case Connect => 0.5
    case IpMessage => 4.0
    case Lookup => 1.0
    case Host => 1.0 / 60.0
    case RoomJoin => 1.0
    case Guest => 1.0 / 15.0
    case RoomMessage => 10.0
    case GuestMessage => 2.0
  }

  /** Tokens that come back in `d` seconds. */
  function Refilled(c: Category, d: real): (t: real) {
    d * Refill(c)
  }

  function Later(a: real, b: real): (d: real) {
    if b > a then b - a else 0.0
  }

  function Least(a: real, b: real): (m: real) {
    if a <= b then a else b
  }

  /** The tokens a bucket would have at `now`; a key without one has a full one. */
  function Level(rates: Rates, k: Key, now: real): (tokens: real) {
    if k !in rates then Capacity(k.category)
    else Least(Capacity(k.category), rates[k].tokens + Refilled(k.category, Later(rates[k].at, now)))
  }

  /** `_allow` admits the request. */
  predicate Admits(rates: Rates, most: nat, k: Key, now: real) {
    (k in rates || |rates| < most) && Level(rates, k, now) >= 1.0
  }

  datatype Event = Request(key: Key, now: real) | Prune(now: real)

  /** A request takes a token or is refused without a trace; maintenance forgets idle buckets. */
  function After(rates: Rates, most: nat, e: Event): (r: Rates) {
    match e
    case Request(k, now) => if Admits(rates, most, k, now) then rates[k := Bucket(Level(rates, k, now) - 1.0, now)] else rates
    case Prune(now) => map k | k in rates && now - rates[k].at <= IDLE :: rates[k]
  }

  function AfterAll(rates: Rates, most: nat, events: seq<Event>): (r: Rates) {
    if |events| == 0 then rates
    else After(AfterAll(rates, most, events[..|events| - 1]), most, events[|events| - 1])
  }

  /** Requests for `k` that were admitted. */
  function Admitted(rates: Rates, most: nat, events: seq<Event>, k: Key): (n: nat) {
    if |events| == 0 then 0
    else
      var last, before := events[|events| - 1], events[..|events| - 1];
      Admitted(rates, most, before, k)
      + (if last.Request? && last.key == k && Admits(AfterAll(rates, most, before), most, k, last.now) then 1 else 0)
  }

  // -------------------------------------------------- what the limits keep

  /** No bucket holds less than nothing or more than its capacity. */
  ghost predicate RatesOk(rates: Rates) {
    forall k :: k in rates ==> 0.0 <= rates[k].tokens <= Capacity(k.category)
  }

  /** How far the clock moved forward over the events, starting at `start`: steps back do not count. */
  function Forward(start: real, events: seq<Event>): (d: real) {
    if |events| == 0 then 0.0
    else Forward(start, events[..|events| - 1]) + Later(Clock(start, events[..|events| - 1]), events[|events| - 1].now)
  }

  /** The clock after the events. */
  function Clock(start: real, events: seq<Event>): (t: real) {
    if |events| == 0 then start else events[|events| - 1].now
  }

  lemma Scale(c: Category, d: real)
    requires d >= 0.0
    ensures Refilled(c, d) >= 0.0
  {
  }

  lemma LevelBounds(rates: Rates, k: Key, now: real)
    requires RatesOk(rates)
    ensures 0.0 <= Level(rates, k, now) <= Capacity(k.category)
  {
    if k in rates { Scale(k.category, Later(rates[k].at, now)); }
  }

  lemma AfterOk(rates: Rates, most: nat, e: Event)
    requires RatesOk(rates)
    ensures RatesOk(After(rates, most, e))
  {
    if e.Request? { LevelBounds(rates, e.key, e.now); }
  }

  /** Moving the clock on adds at most the refill for that time. */
  lemma LevelRises(rates: Rates, k: Key, t: real, now: real)
    ensures Level(rates, k, now) <= Level(rates, k, t) + Refilled(k.category, Later(t, now))
  {
    Scale(k.category, Later(t, now));
    if k in rates {
      var at, r := rates[k].at, Refill(k.category);
      Triangle(at, t, now);
      Scale(k.category, Later(at, t) + Later(t, now) - Later(at, now));
      assert (Later(at, t) + Later(t, now) - Later(at, now)) * r == Later(at, t) * r + Later(t, now) * r - Later(at, now) * r;
    }
  }

  lemma Triangle(a: real, b: real, c: real)
    ensures Later(a, c) <= Later(a, b) + Later(b, c)
  {
  }

  /** A bucket idle for 300 seconds is full again, so forgetting it changes no level now or later. */
  lemma PruneUnseen(rates: Rates, most: nat, now: real, k: Key, later: real)
    requires RatesOk(rates) && now <= later
    ensures Level(After(rates, most, Prune(now)), k, later) == Level(rates, k, later)
  {
    if k in rates && now - rates[k].at > IDLE {
      var d, r := Later(rates[k].at, later), Refill(k.category);
      assert d > IDLE;
      assert d * r == IDLE * r + (d - IDLE) * r;
      Scale(k.category, d - IDLE);
      assert IDLE * r >= Capacity(k.category);
    }
  }

  lemma {:induction false} AfterAllOk(rates: Rates, most: nat, events: seq<Event>)
    requires RatesOk(rates)
    ensures RatesOk(AfterAll(rates, most, events))
  {
    if |events| > 0 {
      AfterAllOk(rates, most, events[..|events| - 1]);
      AfterOk(AfterAll(rates, most, events[..|events| - 1]), most, events[|events| - 1]);
    }
  }

  /** One event: the tokens left and the admission it grants come out of what was there and the refill since. */
  lemma Spends(rates: Rates, most: nat, e: Event, k: Key, t: real)
    requires RatesOk(rates)
    ensures Level(After(rates, most, e), k, e.now)
            + (if e.Request? && e.key == k && Admits(rates, most, k, e.now) then 1.0 else 0.0)
         <= Level(rates, k, t) + Refilled(k.category, Later(t, e.now))
  {
    LevelRises(rates, k, t, e.now);
    LevelBounds(rates, k, e.now);
    if e.Prune? { PruneUnseen(rates, most, e.now, k, e.now); }
  }

  lemma RefilledSum(c: Category, a: real, b: real)
    ensures Refilled(c, a + b) == Refilled(c, a) + Refilled(c, b)
  {
  }

  /** Admissions and the tokens left never exceed the tokens at the start and the refill while the clock went forward. */
  lemma {:induction false} Budget(rates: Rates, most: nat, events: seq<Event>, k: Key, start: real)
    requires RatesOk(rates)
    ensures Admitted(rates, most, events, k) as real + Level(AfterAll(rates, most, events), k, Clock(start, events))
         <= Level(rates, k, start) + Refilled(k.category, Forward(start, events))
  {
    hide Refilled, Capacity, Level, Admits, After, RatesOk;
    if |events| > 0 {
      var before, last := events[..|events| - 1], events[|events| - 1];
      var t := Clock(start, before);
      Budget(rates, most, before, k, start);
      AfterAllOk(rates, most, before);
      Spends(AfterAll(rates, most, before), most, last, k, t);
      RefilledSum(k.category, Forward(start, before), Later(t, last.now));
    } else {
      RefilledSum(k.category, 0.0, 0.0);
    }
  }

  /** The clock never goes back. */
  predicate Steady(start: real, events: seq<Event>) {
    forall i :: 0 <= i < |events| ==> Clock(start, events[..i]) <= events[i].now
  }

  /** The clock goes forward at least by what it shows in the end, and by exactly that if it never goes back. */
  lemma {:induction false} SteadyForward(start: real, events: seq<Event>)
    ensures Forward(start, events) >= Clock(start, events) - start
    ensures Forward(start, events) == Clock(start, events) - start <==> Steady(start, events)
  {
    if |events| > 0 {
      var before, last := events[..|events| - 1], events[|events| - 1];
      assert forall i :: 0 <= i < |before| ==> before[..i] == events[..i];
      SteadyForward(start, before);
      assert Steady(start, events) <==> Steady(start, before) && Clock(start, before) <= last.now by {
        if Steady(start, before) && Clock(start, before) <= last.now {
          forall i | 0 <= i < |events| ensures Clock(start, events[..i]) <= events[i].now {
            if i < |before| { assert Clock(start, before[..i]) <= before[i].now; }
          }
        }
        if Steady(start, events) { assert Clock(start, events[..|before|]) <= events[|before|].now; }
      }
    }
  }

  /** Main result: over any requests and prunings a key is admitted at most its capacity plus its refill for the time the
      clock went forward; that is the time that passed exactly if the clock never goes back. */
  lemma AdmitsWithinRate(rates: Rates, most: nat, events: seq<Event>, k: Key, start: real)
    requires RatesOk(rates)
    ensures Admitted(rates, most, events, k) as real <= Capacity(k.category) + Refilled(k.category, Forward(start, events))
    ensures Forward(start, events) == Clock(start, events) - start <==> Steady(start, events)
  {
    Budget(rates, most, events, k, start);
    AfterAllOk(rates, most, events);
    LevelBounds(AfterAll(rates, most, events), k, Clock(start, events));
    LevelBounds(rates, k, start);
    SteadyForward(start, events);
  }

  /** The requests alone, as a service that forgets nothing would see them. */
  function Requests(events: seq<Event>): (r: seq<Event>) {
    if |events| == 0 then []
    else Requests(events[..|events| - 1]) + (if events[|events| - 1].Request? then [events[|events| - 1]] else [])
  }

  /** The same tokens for every key, now and later. */
  ghost predicate SameLevels(a: Rates, b: Rates, now: real) {
    forall k, t :: t >= now ==> Level(a, k, t) == Level(b, k, t)
  }

  /** The keys requested. */
  function KeysOf(events: seq<Event>): (r: set<Key>) {
    if |events| == 0 then {}
    else KeysOf(events[..|events| - 1]) + (if events[|events| - 1].Request? then {events[|events| - 1].key} else {})
  }

  /** Only the first buckets' keys and the keys requested ever have a bucket. */
  lemma {:induction false} OnlyRequestedKeys(rates: Rates, most: nat, events: seq<Event>)
    ensures AfterAll(rates, most, events).Keys <= rates.Keys + KeysOf(events)
  {
    hide Admits, Level;
    if |events| > 0 { OnlyRequestedKeys(rates, most, events[..|events| - 1]); }
  }

  lemma {:induction false} RequestsKeys(events: seq<Event>)
    ensures KeysOf(Requests(events)) == KeysOf(events)
  {
    if |events| > 0 {
      var before, last := events[..|events| - 1], events[|events| - 1];
      RequestsKeys(before);
      if last.Request? {
        assert Requests(events)[..|Requests(before)|] == Requests(before);
      } else {
        assert Requests(events) == Requests(before);
      }
    }
  }

  /** With room for all of `keys`, a key of them has a bucket or may get one. */
  lemma HasRoom(rates: Rates, keys: set<Key>, most: nat, k: Key)
    requires rates.Keys <= keys && k in keys && |keys| <= most
    ensures k in rates || |rates| < most
  {
    if k !in rates { SubsetSize(rates.Keys + {k}, keys); }
  }

  /** A request is decided alike, and leaves the same levels. */
  lemma SameRequest(a: Rates, b: Rates, most: nat, k: Key, now: real, before: real)
    requires SameLevels(a, b, before) && before <= now && (k in a || |a| < most) && (k in b || |b| < most)
    ensures Admits(a, most, k, now) <==> Admits(b, most, k, now)
    ensures SameLevels(After(a, most, Request(k, now)), After(b, most, Request(k, now)), now)
  {
    assert Level(a, k, now) == Level(b, k, now);
    var a1, b1 := After(a, most, Request(k, now)), After(b, most, Request(k, now));
    forall j, t | t >= now ensures Level(a1, j, t) == Level(b1, j, t) {
      assert Level(a, j, t) == Level(b, j, t);
      if j != k {
        assert Level(a1, j, t) == Level(a, j, t) && Level(b1, j, t) == Level(b, j, t);
      }
    }
  }

  lemma SamePrune(a: Rates, b: Rates, most: nat, now: real, before: real)
    requires SameLevels(a, b, before) && before <= now && RatesOk(a)
    ensures SameLevels(After(a, most, Prune(now)), b, now)
  {
    forall k, t | t >= now ensures Level(After(a, most, Prune(now)), k, t) == Level(b, k, t) {
      PruneUnseen(a, most, now, k, t);
    }
  }

  /** Main result: with room for a bucket of every key and a clock that never goes back, forgetting idle buckets decides
      every request as keeping them all would, however long the run. */
  lemma {:induction false} PruningDecidesAlike(rates: Rates, most: nat, events: seq<Event>, start: real)
    requires RatesOk(rates) && Steady(start, events) && |rates.Keys + KeysOf(events)| <= most
    ensures SameLevels(AfterAll(rates, most, events), AfterAll(rates, most, Requests(events)), Clock(start, events))
    ensures forall k :: Admitted(rates, most, events, k) == Admitted(rates, most, Requests(events), k)
  {
    hide Level, Admits, After, RatesOk, SameLevels;
    if |events| == 0 {
      SameAsBefore(rates, start);
    } else {
      var before, last := events[..|events| - 1], events[|events| - 1];
      SteadyBefore(start, events);
      SubsetSize(rates.Keys + KeysOf(before), rates.Keys + KeysOf(events));
      PruningDecidesAlike(rates, most, before, start);
      var a, b, t := AfterAll(rates, most, before), AfterAll(rates, most, Requests(before)), Clock(start, before);
      AfterAllOk(rates, most, before);
      match last
      case Request(k, now) =>
        RoomInBoth(rates, most, before, rates.Keys + KeysOf(events), k);
        SameRequest(a, b, most, k, now, t);
        assert Requests(events)[..|Requests(before)|] == Requests(before);
      case Prune(now) =>
        SamePrune(a, b, most, now, t);
        assert Requests(events) == Requests(before);
    }
  }

  lemma RoomInBoth(rates: Rates, most: nat, before: seq<Event>, keys: set<Key>, k: Key)
    requires rates.Keys + KeysOf(before) <= keys && k in keys && |keys| <= most
    ensures var a, b := AfterAll(rates, most, before), AfterAll(rates, most, Requests(before));
            (k in a || |a| < most) && (k in b || |b| < most)
  {
    hide AfterAll;
    OnlyRequestedKeys(rates, most, before);
    OnlyRequestedKeys(rates, most, Requests(before));
    RequestsKeys(before);
    HasRoom(AfterAll(rates, most, before), keys, most, k);
    HasRoom(AfterAll(rates, most, Requests(before)), keys, most, k);
  }

  lemma SameAsBefore(rates: Rates, now: real)
    ensures SameLevels(rates, rates, now)
  {
  }

  lemma SteadyBefore(start: real, events: seq<Event>)
    requires Steady(start, events) && |events| > 0
    ensures Steady(start, events[..|events| - 1]) && Clock(start, events[..|events| - 1]) <= events[|events| - 1].now
  {
    var before := events[..|events| - 1];
    assert forall i :: 0 <= i < |before| ==> before[..i] == events[..i];
  }

  /** Requests for `k` admitted from event `m` on. */
  function Since(most: nat, events: seq<Event>, m: nat, k: Key): (n: int)
    requires m <= |events|
  {
    Admitted(map[], most, events, k) - Admitted(map[], most, events[..m], k)
  }

  /** What the rate leaves of a bucket that was full at event `m`. */
  function Left(most: nat, events: seq<Event>, m: nat, k: Key, now: real): (tokens: real)
    requires m < |events|
  {
    Capacity(k.category) + Refilled(k.category, now - events[m].now) - Since(most, events, m, k) as real
  }

  /** No window since an event leaves less than the level, and one leaves just it unless the bucket is full. */
  ghost predicate Tight(most: nat, events: seq<Event>, k: Key, now: real, level: real) {
    && level <= Capacity(k.category)
    && (forall m :: 0 <= m < |events| ==> level <= Left(most, events, m, k, now))
    && (level == Capacity(k.category) || exists m :: 0 <= m < |events| && level == Left(most, events, m, k, now))
  }

  lemma SinceGrows(most: nat, events: seq<Event>, m: nat, k: Key)
    requires m < |events|
    ensures var before, last := events[..|events| - 1], events[|events| - 1];
            Since(most, events, m, k) == (if m < |before| then Since(most, before, m, k) else 0)
              + (if last.Request? && last.key == k && Admits(AfterAll(map[], most, before), most, k, last.now) then 1 else 0)
  {
    var before := events[..|events| - 1];
    assert m <= |before| && events[..m] == before[..m];
    if m == |before| { assert before[..m] == before; }
  }

  /** A level that stays as it was is still tight after one more event. */
  lemma TightStays(most: nat, events: seq<Event>, k: Key, now: real, level: real)
    requires |events| > 0 && events[|events| - 1].now <= now && Tight(most, events[..|events| - 1], k, now, level)
    requires var before, last := events[..|events| - 1], events[|events| - 1];
             !(last.Request? && last.key == k && Admits(AfterAll(map[], most, before), most, k, last.now))
    ensures Tight(most, events, k, now, level)
  {
    hide Admitted, AfterAll, Admits, Since;
    var before := events[..|events| - 1];
    forall m | 0 <= m < |events| ensures m < |before| ==> Left(most, events, m, k, now) == Left(most, before, m, k, now)
                                 ensures m == |before| ==> Left(most, events, m, k, now) >= Capacity(k.category) {
      SinceGrows(most, events, m, k);
      if m == |before| { Scale(k.category, now - events[m].now); }
    }
    if level != Capacity(k.category) {
      var m :| 0 <= m < |before| && level == Left(most, before, m, k, now);
      assert level == Left(most, events, m, k, now);
    }
  }

  /** An admitted request takes one token of the tight level at its time `u`; the refill since then comes on top. */
  lemma TightSpends(most: nat, events: seq<Event>, k: Key, now: real, level: real)
    requires |events| > 0
    requires var before, last := events[..|events| - 1], events[|events| - 1];
             && last.now <= now && last.Request? && last.key == k && Admits(AfterAll(map[], most, before), most, k, last.now)
             && Tight(most, before, k, last.now, level)
    ensures Tight(most, events, k, now,
                  Least(Capacity(k.category), level - 1.0 + Refilled(k.category, Later(events[|events| - 1].now, now))))
  {
    hide Admitted, AfterAll, Admits, Since, Refilled, Capacity;
    var before, last := events[..|events| - 1], events[|events| - 1];
    var more := Refilled(k.category, now - last.now);
    forall m | 0 <= m < |events| ensures m < |before| ==> Left(most, events, m, k, now) == Left(most, before, m, k, last.now) + more - 1.0
                                 ensures m == |before| ==> Left(most, events, m, k, now) == Capacity(k.category) + more - 1.0 {
      SinceGrows(most, events, m, k);
      RefilledSum(k.category, last.now - events[m].now, now - last.now);
    }
    if level != Capacity(k.category) {
      var m :| 0 <= m < |before| && level == Left(most, before, m, k, last.now);
      assert Left(most, events, m, k, now) == level + more - 1.0;
    } else {
      assert Left(most, events, |before|, k, now) == level + more - 1.0;
    }
  }

  /** From no buckets on, under a clock that never goes back, the level is what the tightest window leaves. */
  lemma {:induction false} LevelIs(most: nat, events: seq<Event>, k: Key, start: real, now: real)
    requires Steady(start, events) && Clock(start, events) <= now
    ensures Tight(most, events, k, now, Level(AfterAll(map[], most, events), k, now))
  {
    hide Tight, Admits, RatesOk, Capacity, Refilled;
    if |events| == 0 {
      NothingSpent(most, k, now);
    } else {
      var before, last := events[..|events| - 1], events[|events| - 1];
      var rates := AfterAll(map[], most, before);
      SteadyBefore(start, events);
      AfterAllOk(map[], most, before);
      if last.Request? && last.key == k && Admits(rates, most, k, last.now) {
        LevelIs(most, before, k, start, last.now);
        TightSpends(most, events, k, now, Level(rates, k, last.now));
      } else {
        LevelIs(most, before, k, start, now);
        TightStays(most, events, k, now, Level(rates, k, now));
        if last.Prune? { PruneUnseen(rates, most, last.now, k, now); }
      }
    }
  }

  lemma NothingSpent(most: nat, k: Key, now: real)
    ensures Tight(most, [], k, now, Level(AfterAll(map[], most, []), k, now)) && RatesOk(map[])
  {
  }

  /** Main result: under a clock that never goes back, a request is admitted exactly when there is room for its bucket and,
      with it, no window since an earlier event holds more admissions than the capacity and the window's refill. */
  lemma AdmitsExactly(most: nat, events: seq<Event>, k: Key, start: real, now: real)
    requires Steady(start, events) && Clock(start, events) <= now
    ensures var rates := AfterAll(map[], most, events);
            Admits(rates, most, k, now) <==> (k in rates || |rates| < most) && WithinRate(most, events, k, now)
  {
    hide AfterAll, Admitted, Since, Level;
    LevelIs(most, events, k, start, now);
    var level := Level(AfterAll(map[], most, events), k, now);
    if level >= 1.0 {
      forall m | 0 <= m < |events|
        ensures Since(most, events, m, k) as real + 1.0 <= Capacity(k.category) + Refilled(k.category, now - events[m].now)
      {
        assert level <= Left(most, events, m, k, now);
      }
    } else {
      var m :| 0 <= m < |events| && level == Left(most, events, m, k, now);
      assert Since(most, events, m, k) as real + level == Capacity(k.category) + Refilled(k.category, now - events[m].now);
    }
  }

  ghost predicate WithinRate(most: nat, events: seq<Event>, k: Key, now: real) {
    forall m :: 0 <= m < |events| ==>
      Since(most, events, m, k) as real + 1.0 <= Capacity(k.category) + Refilled(k.category, now - events[m].now)
  }

  /** A clock that goes back and forth refills again: seven hosts are admitted within one minute, not five. */
  lemma ClockBackRefills(id: string)
    ensures var k := Key(Host, id);
            var events := [Request(k, 60.0), Request(k, 0.0), Request(k, 60.0), Request(k, 0.0), Request(k, 60.0),
                           Request(k, 0.0), Request(k, 60.0)];
            && Admitted(map[], 1, events, k) == 7
            && 7.0 > Capacity(Host) + Refilled(Host, 60.0)
            && !Steady(60.0, events)
  {
    var k := Key(Host, id);
    var a, b := Request(k, 60.0), Request(k, 0.0);
    hide Admitted, AfterAll, Level;
    FirstRequest(k);
    Round([a], k, 1, 3.0);
    Round([a] + [b, a], k, 3, 2.0);
    Round([a] + [b, a] + [b, a], k, 5, 1.0);
    var events := [a, b, a, b, a, b, a];
    assert [a] + [b, a] + [b, a] + [b, a] == events;
    assert events[..1] == [a];
    assert !(Clock(60.0, events[..1]) <= events[1].now);
  }

  lemma FirstRequest(k: Key)
    requires k.category == Host
    ensures Admitted(map[], 1, [Request(k, 60.0)], k) == 1
    ensures AfterAll(map[], 1, [Request(k, 60.0)]) == map[k := Bucket(3.0, 60.0)]
  {
    hide After, AfterAll, Admitted;
    NoneYet(k);
    Grows([], Request(k, 60.0), k, 0, 3.0);
    assert [] + [Request(k, 60.0)] == [Request(k, 60.0)];
  }

  lemma NoneYet(k: Key)
    ensures Admitted(map[], 1, [], k) == 0 && AfterAll(map[], 1, []) == map[]
  {
  }

  /** Back a minute and forth again: two more admissions for one token. */
  lemma Round(before: seq<Event>, k: Key, n: nat, left: real)
    requires k.category == Host && Admitted(map[], 1, before, k) == n && 1.0 <= left <= 4.0
    requires AfterAll(map[], 1, before) == map[k := Bucket(left, 60.0)]
    ensures var after := before + [Request(k, 0.0), Request(k, 60.0)];
            Admitted(map[], 1, after, k) == n + 2 && AfterAll(map[], 1, after) == map[k := Bucket(left - 1.0, 60.0)]
  {
    Grows(before, Request(k, 0.0), k, n, left - 1.0);
    Grows(before + [Request(k, 0.0)], Request(k, 60.0), k, n + 1, left - 1.0);
    assert before + [Request(k, 0.0)] + [Request(k, 60.0)] == before + [Request(k, 0.0), Request(k, 60.0)];
  }

  lemma Grows(before: seq<Event>, e: Event, k: Key, n: nat, left: real)
    requires e.Request? && e.key == k && Admitted(map[], 1, before, k) == n
    requires Admits(AfterAll(map[], 1, before), 1, k, e.now) && Level(AfterAll(map[], 1, before), k, e.now) == left + 1.0
    ensures Admitted(map[], 1, before + [e], k) == n + 1
    ensures AfterAll(map[], 1, before + [e]) == AfterAll(map[], 1, before)[k := Bucket(left, e.now)]
  {
    assert (before + [e])[..|before|] == before;
  }

  // ---------------------------------------------------------- the object

  class RateLimiter {
    const most: nat
    var rates: Rates

    ghost predicate Valid()
      reads this
    {
      RatesOk(rates) && |rates| <= most
    }

    constructor (most: nat)
      ensures Valid() && this.most == most && rates == map[]
    {
      this.most, rates := most, map[];
    }

    /** `_allow`. */
    method Allow(k: Key, now: real) returns (ok: bool)
      requires Valid()
      modifies this
      ensures Valid()
      ensures ok <==> Admits(old(rates), most, k, now)
      ensures rates == After(old(rates), most, Request(k, now))
    {
      AfterOk(rates, most, Request(k, now));
      var tokens := Capacity(k.category);
      if k !in rates {
        if |rates| >= most {
          return false;
        }
      } else {
        tokens := Least(tokens, rates[k].tokens + Refilled(k.category, Later(rates[k].at, now)));
      }
      if tokens < 1.0 {
        return false;
      }
      BucketAdded(rates, k, Bucket(tokens - 1.0, now));
      rates := rates[k := Bucket(tokens - 1.0, now)];
      ok := true;
    }

    /** The pruning in `_maintain`: only full buckets go, so no later request can tell. */
    method Forget(now: real)
      requires Valid()
      modifies this
      ensures Valid() && rates == After(old(rates), most, Prune(now))
      ensures SameLevels(rates, old(rates), now)
      ensures forall k, t :: t >= now && k in old(rates) && k !in rates ==> Level(old(rates), k, t) == Capacity(k.category)
    {
      ghost var was := rates;
      rates := map k | k in rates && now - rates[k].at <= IDLE :: rates[k];
      SubsetSize(rates.Keys, was.Keys);
      SameAsBefore(was, now);
      SamePrune(was, was, most, now, now);
      assert forall k, t :: t >= now && k !in rates ==> Level(rates, k, t) == Capacity(k.category);
    }
  }

  lemma BucketAdded(rates: Rates, k: Key, b: Bucket)
    ensures |rates[k := b]| == |rates| + (if k in rates then 0 else 1)
  {
    if k in rates {
      assert rates[k := b].Keys == rates.Keys;
    } else {
      assert rates[k := b].Keys == rates.Keys + {k};
    }
  }
}
