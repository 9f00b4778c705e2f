/** Cards and the 5, 6 or 7 card evaluator (holdem/engine.py). */
module Evaluator {
  import opened Sets

  datatype Card = Card(v: int, s: int)

  predicate ValidCard(c: Card) {
    2 <= c.v <= 14 && 0 <= c.s < 4
  }

  /** The inputs the evaluator serves: five to seven different cards. */
  predicate Hand(C: set<Card>) {
    5 <= |C| <= 7 && forall c :: c in C ==> ValidCard(c)
  }

  const ACE: int := 14

  // ------------------------------------------------------------- scores

  /** Python's `(category, tiebreakers)`; a bigger tuple is a better hand. */
  datatype Score = Score(cat: int, tb: seq<int>)

  predicate LexLe(a: seq<int>, b: seq<int>) {
    |a| == 0 || (|b| > 0 && (a[0] < b[0] || (a[0] == b[0] && LexLe(a[1..], b[1..]))))
  }

  predicate ScoreLe(a: Score, b: Score) {
    a.cat < b.cat || (a.cat == b.cat && LexLe(a.tb, b.tb))
  }

  lemma {:induction false} LexAntisymmetric(a: seq<int>, b: seq<int>)
    requires LexLe(a, b) && LexLe(b, a)
    ensures a == b
  {
    if |a| > 0 {
      LexAntisymmetric(a[1..], b[1..]);
    }
  }

  lemma {:induction false} LexTotal(a: seq<int>, b: seq<int>)
    ensures LexLe(a, b) || LexLe(b, a)
  {
    if |a| > 0 && |b| > 0 {
      LexTotal(a[1..], b[1..]);
    }
  }

  lemma {:induction false} LexTransitive(a: seq<int>, b: seq<int>, c: seq<int>)
    requires LexLe(a, b) && LexLe(b, c)
    ensures LexLe(a, c)
  {
    if |a| > 0 && a[0] == b[0] == c[0] {
      LexTransitive(a[1..], b[1..], c[1..]);
    }
  }

  lemma ScoreOrder(a: Score, b: Score)
    ensures ScoreLe(a, b) || ScoreLe(b, a)
    ensures ScoreLe(a, b) && ScoreLe(b, a) ==> a == b
  {
    LexTotal(a.tb, b.tb);
    if ScoreLe(a, b) && ScoreLe(b, a) {
      LexAntisymmetric(a.tb, b.tb);
    }
  }

  // ------------------------------------------------- counting cards

  function RankCards(C: set<Card>, v: int): (r: set<Card>) {
    set c | c in C && c.v == v
  }

  function SuitCards(C: set<Card>, s: int): (r: set<Card>) {
    set c | c in C && c.s == s
  }

  function Ranks(C: set<Card>): (r: set<int>) {
    set c | c in C :: c.v
  }

  /** Ranks held at least `k` times. */
  function RanksOf(C: set<Card>, k: nat): (r: set<int>) {
    set v | v in Ranks(C) && |RankCards(C, v)| >= k
  }

  /** `[v for v in range(hi, 1, -1) if v in R]`. */
  function Down(R: set<int>, hi: int): (l: seq<int>)
    decreases hi, R
    ensures forall i :: 0 <= i < |l| ==> l[i] in R && 2 <= l[i] <= hi
    ensures forall i, j :: 0 <= i < j < |l| ==> l[i] > l[j]
  {
    if hi < 2 then []
    else if hi in R then [hi] + Down(R, hi - 1)
    else Down(R, hi - 1)
  }

  lemma {:induction false} DownHas(R: set<int>, hi: int, v: int)
    requires v in R && 2 <= v <= hi
    ensures v in Down(R, hi)
    decreases hi
  {
    if v != hi { DownHas(R, hi - 1, v); }
  }

  predicate Descending(t: seq<int>) {
    forall i, j :: 0 <= i < j < |t| ==> t[i] > t[j]
  }

  /** No descending list over `R` beats the first entries of `Down`. */
  lemma {:induction false} DownBeats(R: set<int>, hi: int, t: seq<int>)
    requires Descending(t)
    requires forall i :: 0 <= i < |t| ==> t[i] in R && 2 <= t[i] <= hi
    ensures |t| <= |Down(R, hi)|
    ensures LexLe(t, Down(R, hi)[..|t|])
    decreases hi
  {
    if |t| > 0 {
      if t[0] == hi {
        DownBeats(R, hi - 1, t[1..]);
        assert Down(R, hi)[..|t|][1..] == Down(R, hi - 1)[..|t| - 1];
      } else {
        DownBeats(R, hi - 1, t);
      }
    }
  }

  lemma {:induction false} DownSize(R: set<int>, hi: int)
    requires forall v :: v in R ==> 2 <= v <= hi
    ensures |Down(R, hi)| == |R|
    decreases hi
  {
    if hi < 2 {
      assert R == {};
    } else {
      var R' := R - {hi};
      DownSize(R', hi - 1);
      DownIgnores(R, hi, hi - 1);
      assert hi in R ==> |R| == |R'| + 1;
      assert hi !in R ==> R == R';
    }
  }

  lemma {:induction false} DownIgnores(R: set<int>, x: int, hi: int)
    requires hi < x
    ensures Down(R - {x}, hi) == Down(R, hi)
    decreases hi
  {
    if hi >= 2 {
      DownIgnores(R, x, hi - 1);
    }
  }

  lemma {:induction false} RanksInjective(D: set<Card>)
    requires forall c, d :: c in D && d in D && c.v == d.v ==> c == d
    ensures |Ranks(D)| == |D|
    decreases |D|
  {
    if D != {} {
      var c :| c in D;
      var E := D - {c};
      RanksInjective(E);
      assert Ranks(D) == Ranks(E) + {c.v};
      assert c.v !in Ranks(E);
    }
  }

  lemma AtMostOne(S: set<Card>, c: Card, d: Card)
    requires c in S && d in S && |S| <= 1
    ensures c == d
  {
    if c != d {
      SubsetSize({c, d}, S);
    }
  }

  /** Four suits, so at most four cards of a rank; one card per rank and suit. */
  lemma RankSize(C: set<Card>, v: int)
    requires forall c :: c in C ==> ValidCard(c)
    ensures |RankCards(C, v)| <= 4
  {
    var all := {Card(v, 0), Card(v, 1), Card(v, 2), Card(v, 3)};
    assert RankCards(C, v) <= all;
    SubsetSize(RankCards(C, v), all);
  }

  // -------------------------------------------------------- straights

  /** Ranks h, h-1, .., h-4 are all there; rank 1 is the ace playing low. */
  predicate StraightAt(R: set<int>, h: int) {
    5 <= h <= 14 && forall k :: h - 4 <= k <= h ==> k in R || (k == 1 && 14 in R)
  }

  /** The highest straight up to `h`, or 0. */
  function StraightHigh(R: set<int>, h: int): (r: int)
    requires h <= 14
    decreases h, R
    ensures r == 0 || StraightAt(R, r)
    ensures forall k :: StraightAt(R, k) && k <= h ==> 0 < k <= r
  {
    if h < 5 then 0 else if StraightAt(R, h) then h else StraightHigh(R, h - 1)
  }

  // -------------------------------------------------------- evaluate

  function FlushSuit(C: set<Card>, s: nat): (r: int)
    requires s <= 4
    decreases 4 - s
    ensures r == -1 || (s <= r < 4 && |SuitCards(C, r)| >= 5)
    ensures r == -1 ==> forall k :: s <= k < 4 ==> |SuitCards(C, k)| < 5
  {
    if s == 4 then -1 else if |SuitCards(C, s)| >= 5 then s else FlushSuit(C, s + 1)
  }

  function Rest(C: set<Card>, X: set<int>): (D: set<Card>) {
    set c | c in C && c.v !in X
  }

  /** The kicker list has an entry per remaining rank; no list index below is out of range. */
  lemma Others(C: set<Card>, X: set<int>)
    requires forall c :: c in C ==> ValidCard(c)
    ensures Ranks(Rest(C, X)) == Ranks(C) - X
    ensures |Down(Ranks(C) - X, ACE)| == |Ranks(C) - X|
    ensures Rest(C, X) != {} ==> |Ranks(C) - X| > 0
    ensures (forall v :: v in Ranks(C) - X ==> |RankCards(C, v)| <= 1) ==> |Ranks(C) - X| == |Rest(C, X)|
  {
    var D := Rest(C, X);
    assert forall v :: v in Ranks(C) - X ==> exists c :: c in D && c.v == v;
    assert Ranks(D) == Ranks(C) - X;
    DownSize(Ranks(C) - X, ACE);
    if D != {} {
      var c :| c in D;
      assert c.v in Ranks(C) - X;
    }
    if forall v :: v in Ranks(C) - X ==> |RankCards(C, v)| <= 1 {
      forall c, d | c in D && d in D && c.v == d.v ensures c == d {
        assert c.v in Ranks(C) - X;
        AtMostOne(RankCards(C, c.v), c, d);
      }
      RanksInjective(D);
    }
  }

  lemma RestOne(C: set<Card>, v: int)
    ensures |Rest(C, {v})| == |C| - |RankCards(C, v)|
  {
    assert C == Rest(C, {v}) + RankCards(C, v);
  }

  lemma RestTwo(C: set<Card>, v: int, w: int)
    requires v != w
    ensures |Rest(C, {v, w})| == |C| - |RankCards(C, v)| - |RankCards(C, w)|
  {
    assert C == Rest(C, {v, w}) + RankCards(C, v) + RankCards(C, w);
  }

  lemma FlushRanks(C: set<Card>, s: int)
    requires forall c :: c in C ==> ValidCard(c)
    ensures |Down(Ranks(SuitCards(C, s)), ACE)| == |SuitCards(C, s)|
  {
    RanksInjective(SuitCards(C, s));
    DownSize(Ranks(SuitCards(C, s)), ACE);
  }

  /** Kickers: the ranks held outside `X`, best first. */
  function Kickers(C: set<Card>, X: set<int>): (l: seq<int>) {
    Down(Ranks(C) - X, ACE)
  }

  /** An empty list of ranks held `k` times bounds every rank's count. */
  lemma CountBelow(C: set<Card>, X: set<int>, k: nat)
    requires forall c :: c in C ==> ValidCard(c)
    requires |Down(RanksOf(C, k) - X, ACE)| == 0
    ensures forall v :: v in Ranks(C) - X ==> |RankCards(C, v)| < k
  {
    forall v | v in Ranks(C) - X ensures |RankCards(C, v)| < k {
      if v in RanksOf(C, k) - X {
        DownHas(RanksOf(C, k) - X, ACE, v);
        assert false;
      }
    }
  }

  function FlushScore(C: set<Card>, fs: int): (r: Score)
    requires Hand(C) && |SuitCards(C, fs)| >= 5
  {
    FlushRanks(C, fs);
    var R := Ranks(SuitCards(C, fs));
    var sf := StraightHigh(R, ACE);
    if sf > 0 then Score(8, [sf]) else Score(5, Down(R, ACE)[..5])
  }

  function QuadsScore(C: set<Card>, q: int): (r: Score)
    requires Hand(C)
    ensures |Kickers(C, {q})| >= 1
  {
    RankSize(C, q);
    RestOne(C, q);
    Others(C, {q});
    Score(7, [q, Kickers(C, {q})[0]])
  }

  function TripsScore(C: set<Card>, t: int): (r: Score)
    requires Hand(C) && |RankCards(C, t)| <= 3
    requires forall v :: v in Ranks(C) - {t} ==> |RankCards(C, v)| < 2
    ensures |Kickers(C, {t})| >= 2
  {
    RestOne(C, t);
    Others(C, {t});
    Score(3, [t] + Kickers(C, {t})[..2])
  }

  function TwoPairScore(C: set<Card>, p: int, q: int): (r: Score)
    requires Hand(C) && p != q && |RankCards(C, p)| <= 2 && |RankCards(C, q)| <= 2
    ensures |Kickers(C, {p, q})| >= 1
  {
    RestTwo(C, p, q);
    Others(C, {p, q});
    Score(2, [p, q, Kickers(C, {p, q})[0]])
  }

  function PairScore(C: set<Card>, p: int): (r: Score)
    requires Hand(C) && |RankCards(C, p)| <= 2
    requires forall v :: v in Ranks(C) - {p} ==> |RankCards(C, v)| < 2
    ensures |Kickers(C, {p})| >= 3
  {
    RestOne(C, p);
    Others(C, {p});
    Score(1, [p] + Kickers(C, {p})[..3])
  }

  function HighScore(C: set<Card>): (r: Score)
    requires Hand(C)
    requires forall v :: v in Ranks(C) ==> |RankCards(C, v)| < 2
    ensures |Kickers(C, {})| >= 5
  {
    Others(C, {});
    assert Ranks(C) - {} == Ranks(C);
    assert Rest(C, {}) == C;
    Score(0, Kickers(C, {})[..5])
  }

  /** Three of a kind and below, `pairs` being the ranks held twice outside `trips`. */
  function LowScore(C: set<Card>, trips: seq<int>, pairs: seq<int>): (r: Score)
    requires Hand(C) && |Down(RanksOf(C, 4), ACE)| == 0
    requires trips == Down(RanksOf(C, 3), ACE)
    requires pairs == Down(RanksOf(C, 2) - Top(trips), ACE)
    requires |trips| == 0 || |pairs| == 0
    ensures |trips| > 0 ==> |Kickers(C, {trips[0]})| >= 2
    ensures |trips| == 0 && |pairs| >= 2 ==> |Kickers(C, {pairs[0], pairs[1]})| >= 1
    ensures |trips| == 0 && |pairs| == 1 ==> |Kickers(C, {pairs[0]})| >= 3
    ensures |trips| == 0 && |pairs| == 0 ==> |Kickers(C, {})| >= 5
  {
    assert RanksOf(C, 4) - {} == RanksOf(C, 4);
    CountBelow(C, {}, 4);
    if |trips| > 0 then
      CountBelow(C, {trips[0]}, 2);
      TripsScore(C, trips[0])
    else
      assert RanksOf(C, 3) - {} == RanksOf(C, 3) && RanksOf(C, 2) - {} == RanksOf(C, 2);
      CountBelow(C, {}, 3);
      if |pairs| >= 2 then TwoPairScore(C, pairs[0], pairs[1])
      else if |pairs| == 1 then
        PairIsAlone(C, pairs);
        PairScore(C, pairs[0])
      else
        CountBelow(C, {}, 2);
        HighScore(C)
  }

  function Top(l: seq<int>): (r: set<int>) {
    if |l| > 0 then {l[0]} else {}
  }

  lemma PairIsAlone(C: set<Card>, pairs: seq<int>)
    requires forall c :: c in C ==> ValidCard(c)
    requires pairs == Down(RanksOf(C, 2), ACE) && |pairs| == 1
    ensures forall v :: v in Ranks(C) - {pairs[0]} ==> |RankCards(C, v)| < 2
  {
    forall v | v in Ranks(C) - {pairs[0]} ensures |RankCards(C, v)| < 2 {
      if v in RanksOf(C, 2) {
        DownHas(RanksOf(C, 2), ACE, v);
        assert false;
      }
    }
  }

  /** The score of `C`, branch for branch as `evaluate` decides it. */
  function Evaluate(C: set<Card>): (r: Score)
    requires Hand(C)
  {
    var fs := FlushSuit(C, 0);
    if fs >= 0 then FlushScore(C, fs)
    else
      var quads := Down(RanksOf(C, 4), ACE);
      var trips := Down(RanksOf(C, 3), ACE);
      var pairs := Down(RanksOf(C, 2) - Top(trips), ACE);
      var st := StraightHigh(Ranks(C), ACE);
      if |quads| > 0 then QuadsScore(C, quads[0])
      else if |trips| > 0 && |pairs| > 0 then Score(6, [trips[0], pairs[0]])
      else if st > 0 then Score(4, [st])
      else LowScore(C, trips, pairs)
  }

  // ------------------------------------------- what a hand of cards can make

  predicate Held(R: set<int>, t: seq<int>) {
    forall i :: 0 <= i < |t| ==> t[i] in R
  }

  predicate AtLeast(C: set<Card>, v: int, k: nat) {
    |RankCards(C, v)| >= k
  }

  /** Five cards of `C` make a hand that scores `sc`, read off the rules of poker. */
  predicate Makes(C: set<Card>, sc: Score) {
    var R, t := Ranks(C), sc.tb;
    match sc.cat
    case 8 => |t| == 1 && exists s :: 0 <= s < 4 && StraightAt(Ranks(SuitCards(C, s)), t[0])
    case 7 => |t| == 2 && AtLeast(C, t[0], 4) && t[1] in R && t[1] != t[0]
    case 6 => |t| == 2 && AtLeast(C, t[0], 3) && AtLeast(C, t[1], 2) && t[1] != t[0]
    case 5 => |t| == 5 && Descending(t) && exists s :: 0 <= s < 4 && Held(Ranks(SuitCards(C, s)), t)
    case 4 => |t| == 1 && StraightAt(R, t[0])
    case 3 => |t| == 3 && AtLeast(C, t[0], 3) && Descending(t[1..]) && Held(R - {t[0]}, t[1..])
    case 2 => |t| == 3 && t[0] > t[1] && AtLeast(C, t[0], 2) && AtLeast(C, t[1], 2) && t[2] in R - {t[0], t[1]}
    case 1 => |t| == 4 && AtLeast(C, t[0], 2) && Descending(t[1..]) && Held(R - {t[0]}, t[1..])
    case 0 => |t| == 5 && Descending(t) && Held(R, t)
    case _ => false
  }

  /** More cards never make less. */
  lemma MakesMonotone(S: set<Card>, C: set<Card>, sc: Score)
    requires S <= C && Makes(S, sc)
    ensures Makes(C, sc)
  {
    forall v ensures |RankCards(S, v)| <= |RankCards(C, v)| {
      SubsetSize(RankCards(S, v), RankCards(C, v));
    }
    assert Ranks(S) <= Ranks(C);
    forall s ensures Ranks(SuitCards(S, s)) <= Ranks(SuitCards(C, s)) {
      assert SuitCards(S, s) <= SuitCards(C, s);
    }
  }

  lemma InRanks(C: set<Card>, v: int)
    requires |RankCards(C, v)| > 0
    ensures v in Ranks(C)
  {
    var c :| c in RankCards(C, v);
    assert c.v in Ranks(C);
  }

  // ------------------------------------------------- the flush family

  /** The five ranks of a straight, best first; the wheel counts its ace high. */
  function StraightList(h: int): (t: seq<int>)
    requires 5 <= h <= 14
    ensures |t| == 5 && Descending(t)
  {
    if h == 5 then [14, 5, 4, 3, 2] else [h, h - 1, h - 2, h - 3, h - 4]
  }

  lemma StraightHeld(R: set<int>, h: int)
    requires StraightAt(R, h) && 1 !in R
    ensures Held(R, StraightList(h))
  {
    assert h in R && h - 1 in R && h - 2 in R && h - 3 in R;
    assert h - 4 in R || (h == 5 && 14 in R);
  }

  lemma FiveOfSuit(C: set<Card>, s: int, t: seq<int>)
    requires forall c :: c in C ==> ValidCard(c)
    requires Descending(t) && Held(Ranks(SuitCards(C, s)), t)
    ensures |t| <= |SuitCards(C, s)|
    ensures |t| <= |Down(Ranks(SuitCards(C, s)), ACE)|
    ensures LexLe(t, Down(Ranks(SuitCards(C, s)), ACE)[..|t|])
  {
    FlushRanks(C, s);
    DownBeats(Ranks(SuitCards(C, s)), ACE, t);
  }

  lemma OneFlush(C: set<Card>, s: int, r: int)
    requires Hand(C) && |SuitCards(C, s)| >= 5 && |SuitCards(C, r)| >= 5
    ensures s == r
  {
    if s != r {
      SubsetSize(SuitCards(C, s) + SuitCards(C, r), C);
    }
  }

  lemma OffSuit(C: set<Card>, s: int, v: int)
    ensures |RankCards(C, v) - SuitCards(C, s)| >= |RankCards(C, v)| - 1
  {
    var both := RankCards(C, v) * SuitCards(C, s);
    assert both <= {Card(v, s)};
    SubsetSize(both, {Card(v, s)});
    assert RankCards(C, v) == (RankCards(C, v) - SuitCards(C, s)) + both;
  }

  /** With five of a suit among seven cards there are no quads and no full house. */
  lemma FlushExcludes(C: set<Card>, s: int, v: int, w: int)
    requires Hand(C) && |SuitCards(C, s)| >= 5
    ensures |RankCards(C, v)| < 4
    ensures v != w ==> |RankCards(C, v)| < 3 || |RankCards(C, w)| < 2
  {
    var F, V, W := SuitCards(C, s), RankCards(C, v) - SuitCards(C, s), RankCards(C, w) - SuitCards(C, s);
    OffSuit(C, s, v);
    OffSuit(C, s, w);
    SubsetSize(F + V, C);
    assert |F + V| == |F| + |V|;
    if v != w {
      SubsetSize(F + V + W, C);
      assert |F + V + W| == |F| + |V| + |W|;
    }
  }

  lemma FlushBest(C: set<Card>, fs: int, sc: Score)
    requires Hand(C) && 0 <= fs < 4 && |SuitCards(C, fs)| >= 5
    requires Makes(C, sc)
    ensures ScoreLe(sc, FlushScore(C, fs))
  {
    var t := sc.tb;
    if sc.cat == 8 {
      var s :| 0 <= s < 4 && StraightAt(Ranks(SuitCards(C, s)), t[0]);
      StraightHeld(Ranks(SuitCards(C, s)), t[0]);
      FiveOfSuit(C, s, StraightList(t[0]));
      OneFlush(C, fs, s);
    } else if sc.cat == 7 {
      FlushExcludes(C, fs, t[0], t[0]);
      assert false;
    } else if sc.cat == 6 {
      FlushExcludes(C, fs, t[0], t[1]);
      assert false;
    } else if sc.cat == 5 {
      var s :| 0 <= s < 4 && Held(Ranks(SuitCards(C, s)), t);
      FiveOfSuit(C, s, t);
      OneFlush(C, fs, s);
    }
  }

  lemma FlushMakes(C: set<Card>, fs: int)
    requires Hand(C) && 0 <= fs < 4 && |SuitCards(C, fs)| >= 5
    ensures Makes(C, FlushScore(C, fs))
  {
    FlushRanks(C, fs);
  }

  lemma NoFlush(C: set<Card>, sc: Score)
    requires Hand(C) && FlushSuit(C, 0) == -1
    requires Makes(C, sc)
    ensures sc.cat != 8 && sc.cat != 5
  {
    if sc.cat == 8 {
      var s :| 0 <= s < 4 && StraightAt(Ranks(SuitCards(C, s)), sc.tb[0]);
      StraightHeld(Ranks(SuitCards(C, s)), sc.tb[0]);
      FiveOfSuit(C, s, StraightList(sc.tb[0]));
      assert false;
    } else if sc.cat == 5 {
      var s :| 0 <= s < 4 && Held(Ranks(SuitCards(C, s)), sc.tb);
      FiveOfSuit(C, s, sc.tb);
      assert false;
    }
  }

  // -------------------------------------------------- paired hands

  /** The first rank held `k` times outside `X` is the highest. */
  lemma TopOf(C: set<Card>, X: set<int>, k: nat, v: int)
    requires forall c :: c in C ==> ValidCard(c)
    requires k > 0 && AtLeast(C, v, k) && v !in X
    ensures |Down(RanksOf(C, k) - X, ACE)| > 0
    ensures v <= Down(RanksOf(C, k) - X, ACE)[0]
    ensures v in Down(RanksOf(C, k) - X, ACE)
  {
    InRanks(C, v);
    DownHas(RanksOf(C, k) - X, ACE, v);
  }

  lemma TopHeld(C: set<Card>, X: set<int>, k: nat, i: nat)
    requires i < |Down(RanksOf(C, k) - X, ACE)|
    ensures AtLeast(C, Down(RanksOf(C, k) - X, ACE)[i], k)
    ensures Down(RanksOf(C, k) - X, ACE)[i] !in X
  {
  }

  lemma KickersBest(C: set<Card>, X: set<int>, t: seq<int>)
    requires forall c :: c in C ==> ValidCard(c)
    requires Descending(t) && Held(Ranks(C) - X, t)
    ensures |t| <= |Kickers(C, X)| && LexLe(t, Kickers(C, X)[..|t|])
  {
    DownBeats(Ranks(C) - X, ACE, t);
  }

  lemma OneQuad(C: set<Card>, v: int, w: int)
    requires Hand(C) && AtLeast(C, v, 4) && AtLeast(C, w, 4)
    ensures v == w
  {
    if v != w {
      SubsetSize(RankCards(C, v) + RankCards(C, w), C);
    }
  }

  lemma QuadsBest(C: set<Card>, q: int, sc: Score)
    requires Hand(C) && AtLeast(C, q, 4)
    ensures Makes(C, sc) && sc.cat != 8 ==> ScoreLe(sc, QuadsScore(C, q))
    ensures Makes(C, QuadsScore(C, q))
  {
    RestOne(C, q);
    RankSize(C, q);
    Others(C, {q});
    if Makes(C, sc) && sc.cat == 7 {
      OneQuad(C, q, sc.tb[0]);
      KickersBest(C, {q}, [sc.tb[1]]);
      assert Kickers(C, {q})[..1] == [Kickers(C, {q})[0]];
      assert QuadsScore(C, q).tb[1..] == Kickers(C, {q})[..1];
      assert sc.tb[1..] == [sc.tb[1]];
    }
  }

  lemma FullHouseBest(C: set<Card>, trips: seq<int>, pairs: seq<int>, sc: Score)
    requires Hand(C)
    requires trips == Down(RanksOf(C, 3), ACE) && |trips| > 0
    requires pairs == Down(RanksOf(C, 2) - {trips[0]}, ACE) && |pairs| > 0
    ensures Makes(C, sc) && sc.cat <= 6 ==> ScoreLe(sc, Score(6, [trips[0], pairs[0]]))
    ensures Makes(C, Score(6, [trips[0], pairs[0]]))
  {
    assert RanksOf(C, 3) - {} == RanksOf(C, 3);
    TopHeld(C, {}, 3, 0);
    TopHeld(C, {trips[0]}, 2, 0);
    if Makes(C, sc) && sc.cat == 6 {
      var t := sc.tb;
      TopOf(C, {}, 3, t[0]);
      if t[0] == trips[0] {
        TopOf(C, {trips[0]}, 2, t[1]);
        assert LexLe(t[1..], [trips[0], pairs[0]][1..]);
      }
    }
  }

  lemma TripsBest(C: set<Card>, t: int, sc: Score)
    requires Hand(C) && |RankCards(C, t)| == 3
    requires forall v :: v in Ranks(C) - {t} ==> |RankCards(C, v)| < 2
    ensures Makes(C, sc) && sc.cat <= 3 ==> ScoreLe(sc, TripsScore(C, t))
    ensures Makes(C, TripsScore(C, t))
  {
    RestOne(C, t);
    Others(C, {t});
    assert TripsScore(C, t).tb[1..] == Kickers(C, {t})[..2];
    if Makes(C, sc) && sc.cat == 3 {
      InRanks(C, sc.tb[0]);
      KickersBest(C, {t}, sc.tb[1..]);
    }
  }

  lemma TwoPairMakes(C: set<Card>, p: int, q: int)
    requires Hand(C) && p > q && |RankCards(C, p)| == 2 && |RankCards(C, q)| == 2
    ensures Makes(C, TwoPairScore(C, p, q))
  {
    RestTwo(C, p, q);
    Others(C, {p, q});
  }

  lemma TopTwo(C: set<Card>, pairs: seq<int>, v: int, w: int)
    requires Hand(C)
    requires pairs == Down(RanksOf(C, 2), ACE) && |pairs| >= 2
    requires v > w && AtLeast(C, v, 2) && AtLeast(C, w, 2)
    ensures v < pairs[0] || (v == pairs[0] && w <= pairs[1])
  {
    InRanks(C, v);
    InRanks(C, w);
    DownBeats(RanksOf(C, 2), ACE, [v, w]);
    assert [v, w][1..] == [w] && pairs[..2][1..] == [pairs[1]];
  }

  lemma TwoPairBest(C: set<Card>, pairs: seq<int>, sc: Score)
    requires Hand(C) && pairs == Down(RanksOf(C, 2), ACE) && |pairs| >= 2
    requires |RankCards(C, pairs[0])| == 2 && |RankCards(C, pairs[1])| == 2
    requires Makes(C, sc) && sc.cat <= 2
    ensures ScoreLe(sc, TwoPairScore(C, pairs[0], pairs[1]))
  {
    var p, q, t := pairs[0], pairs[1], sc.tb;
    if sc.cat == 2 {
      TopTwo(C, pairs, t[0], t[1]);
      RestTwo(C, p, q);
      Others(C, {p, q});
      var k := Kickers(C, {p, q})[0];
      if t[0] == p && t[1] == q {
        KickersBest(C, {p, q}, [t[2]]);
        assert Kickers(C, {p, q})[..1] == [k];
        assert LexLe([t[2]], [k]);
        assert t[1..][1..] == [t[2]] && [p, q, k][1..][1..] == [k];
      }
      assert LexLe(t, [p, q, k]);
    }
  }

  lemma PairBest(C: set<Card>, p: int, sc: Score)
    requires Hand(C) && |RankCards(C, p)| == 2
    requires forall v :: v in Ranks(C) - {p} ==> |RankCards(C, v)| < 2
    ensures Makes(C, sc) && sc.cat <= 1 ==> ScoreLe(sc, PairScore(C, p))
    ensures Makes(C, PairScore(C, p))
  {
    RestOne(C, p);
    Others(C, {p});
    assert PairScore(C, p).tb[1..] == Kickers(C, {p})[..3];
    if Makes(C, sc) && sc.cat == 1 {
      InRanks(C, sc.tb[0]);
      KickersBest(C, {p}, sc.tb[1..]);
    }
  }

  lemma HighBest(C: set<Card>, sc: Score)
    requires Hand(C) && (forall v :: v in Ranks(C) ==> |RankCards(C, v)| < 2)
    ensures Makes(C, sc) && sc.cat <= 0 ==> ScoreLe(sc, HighScore(C))
    ensures Makes(C, HighScore(C))
  {
    assert Rest(C, {}) == C;
    assert Ranks(C) - {} == Ranks(C);
    Others(C, {});
    if Makes(C, sc) && sc.cat == 0 {
      KickersBest(C, {}, sc.tb);
    }
  }

  // ---------------------------------------------- evaluate is the best hand

  /** Without a flush: the rank branches make what they score and nothing beats them. */
  lemma RankBest(C: set<Card>, sc: Score)
    requires Hand(C) && FlushSuit(C, 0) == -1
    ensures Makes(C, Evaluate(C))
    ensures Makes(C, sc) ==> ScoreLe(sc, Evaluate(C))
  {
    if Makes(C, sc) { NoFlush(C, sc); }
    var quads := Down(RanksOf(C, 4), ACE);
    var trips := Down(RanksOf(C, 3), ACE);
    var pairs := Down(RanksOf(C, 2) - Top(trips), ACE);
    assert RanksOf(C, 4) - {} == RanksOf(C, 4) && RanksOf(C, 3) - {} == RanksOf(C, 3);
    if |quads| > 0 {
      QuadsBest(C, quads[0], sc);
    } else {
      CountBelow(C, {}, 4);
      if Makes(C, sc) && sc.cat == 7 {
        InRanks(C, sc.tb[0]);
        assert false;
      }
      if |trips| > 0 && |pairs| > 0 {
        FullHouseBest(C, trips, pairs, sc);
      } else {
        NoFullHouse(C, trips, pairs, sc);
        if StraightHigh(Ranks(C), ACE) == 0 {
          LowBest(C, trips, pairs, sc);
        }
      }
    }
  }

  lemma NoFullHouse(C: set<Card>, trips: seq<int>, pairs: seq<int>, sc: Score)
    requires Hand(C)
    requires trips == Down(RanksOf(C, 3), ACE)
    requires pairs == Down(RanksOf(C, 2) - Top(trips), ACE)
    requires |trips| == 0 || |pairs| == 0
    ensures Makes(C, sc) ==> sc.cat != 6
  {
    if Makes(C, sc) && sc.cat == 6 {
      var t := sc.tb;
      assert RanksOf(C, 3) - {} == RanksOf(C, 3);
      TopOf(C, {}, 3, t[0]);
      TopOf(C, Top(trips), 2, if t[1] != trips[0] then t[1] else t[0]);
      assert false;
    }
  }

  lemma LowBest(C: set<Card>, trips: seq<int>, pairs: seq<int>, sc: Score)
    requires Hand(C) && |Down(RanksOf(C, 4), ACE)| == 0
    requires trips == Down(RanksOf(C, 3), ACE)
    requires pairs == Down(RanksOf(C, 2) - Top(trips), ACE)
    requires |trips| == 0 || |pairs| == 0
    ensures Makes(C, LowScore(C, trips, pairs))
    ensures Makes(C, sc) && sc.cat <= 3 ==> ScoreLe(sc, LowScore(C, trips, pairs))
  {
    assert RanksOf(C, 4) - {} == RanksOf(C, 4) && RanksOf(C, 3) - {} == RanksOf(C, 3);
    CountBelow(C, {}, 4);
    if |trips| > 0 {
      CountBelow(C, {trips[0]}, 2);
      TopHeld(C, {}, 3, 0);
      TripsBest(C, trips[0], sc);
    } else {
      CountBelow(C, {}, 3);
      if Makes(C, sc) && sc.cat == 3 {
        InRanks(C, sc.tb[0]);
        assert false;
      }
      assert RanksOf(C, 2) - {} == RanksOf(C, 2);
      PairedBest(C, pairs, sc);
    }
  }

  lemma PairedBest(C: set<Card>, pairs: seq<int>, sc: Score)
    requires Hand(C) && |Down(RanksOf(C, 4), ACE)| == 0 && |Down(RanksOf(C, 3), ACE)| == 0
    requires forall v :: v in Ranks(C) ==> |RankCards(C, v)| < 3
    requires pairs == Down(RanksOf(C, 2) - {}, ACE) && RanksOf(C, 2) - {} == RanksOf(C, 2)
    ensures Makes(C, LowScore(C, [], pairs))
    ensures Makes(C, sc) && sc.cat <= 2 ==> ScoreLe(sc, LowScore(C, [], pairs))
  {
    if |pairs| >= 2 {
      TwoPairMakes(C, pairs[0], pairs[1]);
      if Makes(C, sc) && sc.cat <= 2 { TwoPairBest(C, pairs, sc); }
    } else {
      if Makes(C, sc) && sc.cat == 2 {
        TopOf(C, {}, 2, sc.tb[0]);
        TopOf(C, {}, 2, sc.tb[1]);
        assert false;
      }
      if |pairs| == 1 {
        PairIsAlone(C, pairs);
        PairBest(C, pairs[0], sc);
      } else {
        CountBelow(C, {}, 2);
        if Makes(C, sc) && sc.cat == 1 {
          InRanks(C, sc.tb[0]);
          assert false;
        }
        HighBest(C, sc);
      }
    }
  }

  /** `evaluate` returns a score the cards make, and the best one. */
  lemma EvaluateIsBest(C: set<Card>, sc: Score)
    requires Hand(C)
    ensures Makes(C, Evaluate(C))
    ensures Makes(C, sc) ==> ScoreLe(sc, Evaluate(C))
  {
    var fs := FlushSuit(C, 0);
    if fs >= 0 {
      FlushMakes(C, fs);
      if Makes(C, sc) { FlushBest(C, fs, sc); }
    } else {
      RankBest(C, sc);
    }
  }

  // -------------------------------------------- five cards are enough

  lemma {:induction false} Pick(S: set<Card>, k: nat) returns (T: set<Card>)
    requires k <= |S|
    ensures T <= S && |T| == k
    decreases |S|
  {
    if k == |S| {
      T := S;
    } else {
      var c :| c in S;
      T := Pick(S - {c}, k);
    }
  }

  /** One card of `C` for each listed rank. */
  lemma {:induction false} PickRanks(C: set<Card>, t: seq<int>) returns (T: set<Card>)
    requires Descending(t) && Held(Ranks(C), t)
    ensures T <= C && |T| == |t| && Held(Ranks(T), t)
    ensures forall c :: c in T ==> c.v in t
  {
    if |t| == 0 {
      T := {};
    } else {
      var U := PickRanks(C, t[1..]);
      var c :| c in C && c.v == t[0];
      forall d | d in U ensures d.v != c.v {
        var i :| 0 <= i < |t[1..]| && t[1..][i] == d.v;
        assert t[0] > t[i + 1];
      }
      T := U + {c};
      assert c.v in Ranks(T);
      forall i | 0 <= i < |t| ensures t[i] in Ranks(T) {
        if i > 0 {
          assert t[1..][i - 1] in Ranks(U);
        }
      }
    }
  }

  lemma RankCardsGrow(T: set<Card>, U: set<Card>, v: int)
    requires U <= T && forall c :: c in U ==> c.v == v
    ensures |RankCards(T, v)| >= |U|
  {
    SubsetSize(U, RankCards(T, v));
  }

  /** `k` cards of rank `v` and a card for each kicker. */
  lemma OfKind(C: set<Card>, v: int, k: nat, t: seq<int>) returns (S: set<Card>)
    requires AtLeast(C, v, k) && Descending(t) && Held(Ranks(C) - {v}, t)
    ensures S <= C && |S| == k + |t|
    ensures AtLeast(S, v, k) && Held(Ranks(S) - {v}, t)
  {
    var K := Pick(RankCards(C, v), k);
    var T := PickRanks(C, t);
    S := K + T;
    assert K !! T;
    RankCardsGrow(S, K, v);
    assert Ranks(T) <= Ranks(S);
  }

  lemma TwoKinds(C: set<Card>, v: int, k: nat, w: int, l: nat) returns (S: set<Card>)
    requires AtLeast(C, v, k) && AtLeast(C, w, l) && v != w
    ensures S <= C && |S| == k + l
    ensures AtLeast(S, v, k) && AtLeast(S, w, l)
    ensures forall c :: c in S ==> c.v == v || c.v == w
  {
    var K := Pick(RankCards(C, v), k);
    var L := Pick(RankCards(C, w), l);
    S := K + L;
    assert K !! L;
    RankCardsGrow(S, K, v);
    RankCardsGrow(S, L, w);
  }

  lemma OneMore(C: set<Card>, S: set<Card>, v: int) returns (T: set<Card>)
    requires S <= C && v in Ranks(C) && forall c :: c in S ==> c.v != v
    ensures S <= T <= C && |T| == |S| + 1 && v in Ranks(T)
  {
    var c :| c in C && c.v == v;
    T := S + {c};
    assert c.v in Ranks(T);
  }

  lemma StraightFrom(R: set<int>, h: int)
    requires 5 <= h <= 14 && Held(R, StraightList(h))
    ensures StraightAt(R, h)
  {
    var t := StraightList(h);
    assert t[0] in R && t[1] in R && t[2] in R && t[3] in R && t[4] in R;
  }

  lemma FiveFlush(C: set<Card>, s: int, t: seq<int>) returns (S: set<Card>)
    requires |t| == 5 && Descending(t) && Held(Ranks(SuitCards(C, s)), t)
    ensures S <= C && |S| == 5 && Held(Ranks(SuitCards(S, s)), t)
  {
    S := PickRanks(SuitCards(C, s), t);
    assert SuitCards(S, s) == S;
  }

  /** Whatever seven cards make, five of them make. */
  lemma FiveMake(C: set<Card>, sc: Score) returns (S: set<Card>)
    requires Hand(C) && Makes(C, sc)
    ensures S <= C && |S| == 5 && Makes(S, sc)
  {
    var t := sc.tb;
    match sc.cat
    case 8 =>
      var s :| 0 <= s < 4 && StraightAt(Ranks(SuitCards(C, s)), t[0]);
      StraightHeld(Ranks(SuitCards(C, s)), t[0]);
      S := FiveFlush(C, s, StraightList(t[0]));
      StraightFrom(Ranks(SuitCards(S, s)), t[0]);
    case 7 =>
      S := OfKind(C, t[0], 4, t[1..]);
      assert t[1..][0] in Ranks(S);
    case 6 => S := TwoKinds(C, t[0], 3, t[1], 2);
    case 5 =>
      var s :| 0 <= s < 4 && Held(Ranks(SuitCards(C, s)), t);
      S := FiveFlush(C, s, t);
    case 4 =>
      StraightHeld(Ranks(C), t[0]);
      S := PickRanks(C, StraightList(t[0]));
      StraightFrom(Ranks(S), t[0]);
    case 3 => S := OfKind(C, t[0], 3, t[1..]);
    case 2 =>
      var U := TwoKinds(C, t[0], 2, t[1], 2);
      S := OneMore(C, U, t[2]);
      SubsetSize(RankCards(U, t[0]), RankCards(S, t[0]));
      SubsetSize(RankCards(U, t[1]), RankCards(S, t[1]));
    case 1 => S := OfKind(C, t[0], 2, t[1..]);
    case 0 => S := PickRanks(C, t);
  }

  /** `C` scores at least what any five of its cards score. */
  lemma EvaluateBound(C: set<Card>, S: set<Card>)
    requires Hand(C) && Hand(S) && S <= C
    ensures ScoreLe(Evaluate(S), Evaluate(C))
  {
    EvaluateIsBest(S, Evaluate(S));
    MakesMonotone(S, C, Evaluate(S));
    EvaluateIsBest(C, Evaluate(S));
  }

  /** Main result: the table-driven score is the maximum over all five-card subsets. */
  lemma EvaluateIsMaxOfFive(C: set<Card>)
    requires Hand(C)
    ensures forall S: set<Card> :: S <= C && |S| == 5 ==> ScoreLe(Evaluate(S), Evaluate(C))
    ensures exists S: set<Card> :: S <= C && |S| == 5 && Evaluate(S) == Evaluate(C)
  {
    forall S: set<Card> | S <= C && |S| == 5 ensures ScoreLe(Evaluate(S), Evaluate(C)) {
      EvaluateBound(C, S);
    }
    EvaluateIsBest(C, Evaluate(C));
    var S := FiveMake(C, Evaluate(C));
    EvaluateIsBest(S, Evaluate(C));
    EvaluateBound(C, S);
    ScoreOrder(Evaluate(S), Evaluate(C));
  }
}
