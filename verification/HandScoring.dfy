/** Rank masks: bit r of a mask says that rank r is held. */
module RankBits {

  /** `m & (1 << r) != 0`. */
  predicate Bit(m: nat, r: nat) {
    if r == 0 then m % 2 == 1 else Bit(m / 2, r - 1)
  }

  /** `m | (1 << v)`. */
  function WithBit(m: nat, v: nat): (n: nat) {
    if v == 0 then (if m % 2 == 1 then m else m + 1) else 2 * WithBit(m / 2, v - 1) + m % 2
  }

  lemma {:induction false} SetBit(m: nat, v: nat, r: nat)
    ensures Bit(WithBit(m, v), r) <==> r == v || Bit(m, r)
  {
    if v > 0 && r > 0 {
      SetBit(m / 2, v - 1, r - 1);
    }
  }

  lemma {:induction false} NoBits(r: nat)
    ensures !Bit(0, r)
  {
    if r > 0 { NoBits(r - 1); }
  }

  function Shift(k: nat): (p: nat) {
    if k == 0 then 1 else 2 * Shift(k - 1)
  }

  lemma HalfBelow(m: nat, p: nat)
    requires m < 2 * p
    ensures m / 2 < p
  {
  }

  lemma {:induction false} WithBitBound(m: nat, v: nat, k: nat)
    requires m < Shift(k) && v < k
    ensures WithBit(m, v) < Shift(k)
  {
    if v > 0 {
      HalfBelow(m, Shift(k - 1));
      WithBitBound(m / 2, v - 1, k - 1);
    }
  }
}

/** The evaluator's loops (holdem/engine.py), proved against `Evaluator.Evaluate`. */
module HandScoring {
  import opened Evaluator
  import opened RankBits

  // ------------------------------------------------ the straight table

  const MASKS: nat := 32768

  function MaskRanks(m: nat): (R: set<int>) {
    set r: nat | 0 <= r <= 14 && Bit(m, r) :: r
  }

  /** One row of the table: a single downward scan counting a run of ranks. */
  method StraightRow(mask: nat) returns (high: int)
    ensures high == StraightHigh(MaskRanks(mask), ACE)
  {
    var m := mask;
    if Bit(m, ACE) {
      m := WithBit(m, 1);
    }
    ghost var R := MaskRanks(mask);
    forall r: nat | 1 <= r <= 14 ensures Bit(m, r) <==> r in R || (r == 1 && 14 in R) {
      SetBit(mask, 1, r);
    }
    var run: nat := 0;
    high := 0;
    var r: nat := 14;
    while r >= 1
      invariant 0 <= r <= 14 && 0 <= run < 5 && r + run <= 14
      invariant high == 0
      invariant forall k: nat :: r < k <= r + run ==> Bit(m, k)
      invariant forall h :: StraightAt(R, h) ==> h <= r + run
    {
      if Bit(m, r) {
        run := run + 1;
        if run == 5 {
          high := r + 4;
          assert forall k: nat :: high - 4 <= k <= high ==> Bit(m, k);
          assert StraightAt(R, high);
          return;
        }
      } else {
        forall h | StraightAt(R, h) ensures h <= r - 1 {
          assert h - 4 <= r <= h ==> r in R || (r == 1 && 14 in R);
        }
        run := 0;
      }
      r := r - 1;
    }
  }

  /** `_STRAIGHT_HIGH.get(m, 0)`. */
  function Lookup(table: map<nat, int>, m: nat): (r: int) {
    if m in table then table[m] else 0
  }

  /** `_STRAIGHT_HIGH`: only masks holding a straight have an entry. */
  ghost predicate TableOk(table: map<nat, int>) {
    forall m: nat :: m < MASKS ==> Lookup(table, m) == StraightHigh(MaskRanks(m), ACE)
  }

  method BuildStraightTable() returns (table: map<nat, int>)
    ensures TableOk(table)
  {
    table := map[];
    for mask := 0 to MASKS
      invariant forall m: nat :: m < mask ==> Lookup(table, m) == StraightHigh(MaskRanks(m), ACE)
      invariant forall m: nat :: m >= mask ==> m !in table
    {
      var high := StraightRow(mask);
      if high > 0 {
        table := table[mask := high];
      }
    }
  }

  // ------------------------------------------------------- evaluate

  predicate Distinct(cards: seq<Card>) {
    forall i, j :: 0 <= i < j < |cards| ==> cards[i] != cards[j]
  }

  predicate Dealt(cards: seq<Card>) {
    5 <= |cards| <= 7 && Distinct(cards) && forall c :: c in cards ==> ValidCard(c)
  }

  function CardSet(cards: seq<Card>): (C: set<Card>) {
    set c | c in cards
  }

  lemma {:induction false} CardSetSize(cards: seq<Card>)
    requires Distinct(cards)
    ensures |CardSet(cards)| == |cards|
  {
    if |cards| > 0 {
      var n := |cards| - 1;
      CardSetSize(cards[..n]);
      assert CardSet(cards) == CardSet(cards[..n]) + {cards[n]};
    }
  }

  lemma OneMoreOfRank(A: set<Card>, c: Card, v: int)
    requires c !in A
    ensures |RankCards(A + {c}, v)| == |RankCards(A, v)| + (if c.v == v then 1 else 0)
  {
    if c.v == v {
      assert RankCards(A + {c}, v) == RankCards(A, v) + {c};
    } else {
      assert RankCards(A + {c}, v) == RankCards(A, v);
    }
  }

  lemma OneMoreOfSuit(A: set<Card>, c: Card, s: int)
    requires c !in A
    ensures |SuitCards(A + {c}, s)| == |SuitCards(A, s)| + (if c.s == s then 1 else 0)
  {
    if c.s == s {
      assert SuitCards(A + {c}, s) == SuitCards(A, s) + {c};
    } else {
      assert SuitCards(A + {c}, s) == SuitCards(A, s);
    }
  }

  lemma OneMoreCard(A: set<Card>, c: Card)
    requires c !in A
    ensures forall v :: |RankCards(A + {c}, v)| == |RankCards(A, v)| + (if c.v == v then 1 else 0)
    ensures forall s :: |SuitCards(A + {c}, s)| == |SuitCards(A, s)| + (if c.s == s then 1 else 0)
    ensures Ranks(A + {c}) == Ranks(A) + {c.v}
  {
    forall v ensures |RankCards(A + {c}, v)| == |RankCards(A, v)| + (if c.v == v then 1 else 0) {
      OneMoreOfRank(A, c, v);
    }
    forall s ensures |SuitCards(A + {c}, s)| == |SuitCards(A, s)| + (if c.s == s then 1 else 0) {
      OneMoreOfSuit(A, c, s);
    }
  }

  lemma NoCards()
    ensures forall v :: |RankCards(CardSet([]), v)| == 0
    ensures forall s :: |SuitCards(CardSet([]), s)| == 0
    ensures Ranks(CardSet([])) == {}
  {
    assert CardSet([]) == {};
    assert forall v :: RankCards({}, v) == {} && SuitCards({}, v) == {};
  }

  lemma TakeOneMore(cards: seq<Card>, k: nat)
    requires Distinct(cards) && k < |cards|
    ensures CardSet(cards[..k + 1]) == CardSet(cards[..k]) + {cards[k]}
    ensures cards[k] !in CardSet(cards[..k]) && cards[k] in cards
  {
    assert cards[..k + 1] == cards[..k] + [cards[k]];
  }

  lemma RankHeld(C: set<Card>, v: int)
    ensures v in Ranks(C) <==> |RankCards(C, v)| > 0
  {
    if v in Ranks(C) {
      var c :| c in C && c.v == v;
      assert c in RankCards(C, v);
    }
    if |RankCards(C, v)| > 0 { InRanks(C, v); }
  }

  /** The counting loop: cards per rank, cards per suit and the rank mask. */
  method Tally(cards: seq<Card>) returns (counts: array<nat>, suits: array<nat>, mask: nat)
    requires Distinct(cards) && forall c :: c in cards ==> ValidCard(c)
    ensures fresh(counts) && counts.Length == 15
    ensures fresh(suits) && suits.Length == 4
    ensures forall v :: 0 <= v < 15 ==> counts[v] == |RankCards(CardSet(cards), v)|
    ensures forall s :: 0 <= s < 4 ==> suits[s] == |SuitCards(CardSet(cards), s)|
    ensures mask < MASKS && MaskRanks(mask) == Ranks(CardSet(cards))
  {
    hide RankCards, SuitCards, Bit, WithBit, Shift;
    counts := new nat[15](_ => 0);
    suits := new nat[4](_ => 0);
    mask := 0;
    NoCards();
    MaskCount();
    forall r: nat ensures !Bit(0, r) { NoBits(r); }
    for k := 0 to |cards|
      invariant forall v :: 0 <= v < 15 ==> counts[v] == |RankCards(CardSet(cards[..k]), v)|
      invariant forall s :: 0 <= s < 4 ==> suits[s] == |SuitCards(CardSet(cards[..k]), s)|
      invariant mask < Shift(15)
      invariant forall r: nat :: r < 15 ==> (Bit(mask, r) <==> r in Ranks(CardSet(cards[..k])))
    {
      var c := cards[k];
      TakeOneMore(cards, k);
      OneMoreCard(CardSet(cards[..k]), c);
      suits[c.s] := suits[c.s] + 1;
      counts[c.v] := counts[c.v] + 1;
      WithBitBound(mask, c.v, 15);
      forall r: nat | r < 15 ensures Bit(WithBit(mask, c.v), r) <==> r in Ranks(CardSet(cards[..k + 1])) {
        SetBit(mask, c.v, r);
      }
      mask := WithBit(mask, c.v);
    }
    assert cards[..|cards|] == cards;
  }

  /** `[v for v in range(14, 1, -1) if counts[v] and v not in X]`. */
  method HeldOutside(counts: array<nat>, X: set<int>, ghost C: set<Card>) returns (l: seq<int>)
    requires counts.Length == 15
    requires forall c :: c in C ==> ValidCard(c)
    requires forall v :: 0 <= v < 15 ==> counts[v] == |RankCards(C, v)|
    ensures l == Kickers(C, X)
  {
    l := [];
    var v := 14;
    while v > 1
      invariant 1 <= v <= 14
      invariant Kickers(C, X) == l + Down(Ranks(C) - X, v)
    {
      RankHeld(C, v);
      if counts[v] > 0 && v !in X {
        l := l + [v];
      }
      v := v - 1;
    }
  }

  lemma DownTurn(R: set<int>, v: int)
    requires v >= 2
    ensures Down(R, v) == (if v in R then [v] else []) + Down(R, v - 1)
  {
  }

  lemma DownDone(R: set<int>)
    ensures Down(R, 1) == []
  {
  }

  /** `top` is the highest rank of `R` once the scan is down to `v`, or 0 while it has met none. */
  predicate TopAt(R: set<int>, v: int, top: int) {
    if top == 0 then Down(R, ACE) == Down(R, v) else Down(R, ACE) != [] && top == Down(R, ACE)[0] && top > v
  }

  lemma TopTurn(R: set<int>, v: int, top: int)
    requires 2 <= v <= ACE && TopAt(R, v, top)
    ensures TopAt(R, v - 1, if v in R && top == 0 then v else top)
    ensures v in R ==> (v in Top(Down(R, ACE)) <==> top == 0)
    ensures v !in R ==> v !in Top(Down(R, ACE))
  {
    hide Down;
    DownTurn(R, v);
  }

  lemma TopEnd(R: set<int>, top: int)
    requires TopAt(R, 1, top)
    ensures if Down(R, ACE) == [] then top == 0 else top == Down(R, ACE)[0]
  {
    hide Down;
    DownDone(R);
  }

  /** The ranks of `P` met so far. */
  predicate MetAt(P: set<int>, v: int, met: seq<int>) {
    Down(P, ACE) == met + Down(P, v)
  }

  lemma MetTurn(P: set<int>, v: int, met: seq<int>)
    requires 2 <= v <= ACE && MetAt(P, v, met)
    ensures MetAt(P, v - 1, if v in P then met + [v] else met)
  {
    hide Down;
    DownTurn(P, v);
  }

  lemma MetEnd(P: set<int>, met: seq<int>)
    requires MetAt(P, 1, met)
    ensures met == Down(P, ACE)
  {
    DownDone(P);
  }

  /** The scan that sorts ranks into quads, trips and pairs; a second three of a kind plays as a pair. */
  method Kinds(counts: array<nat>, ghost R4: set<int>, ghost R3: set<int>, ghost R2: set<int>)
    returns (quads: int, trips: int, pairs: seq<int>)
    requires counts.Length == 15
    requires forall v :: 2 <= v < 15 ==> counts[v] <= 4 && (v in R4 <==> counts[v] >= 4)
    requires forall v :: 2 <= v < 15 ==> (v in R3 <==> counts[v] >= 3) && (v in R2 <==> counts[v] >= 2)
    ensures if Down(R4, ACE) == [] then quads == 0 else quads == Down(R4, ACE)[0]
    ensures quads == 0 ==> (if Down(R3, ACE) == [] then trips == 0 else trips == Down(R3, ACE)[0])
    ensures quads == 0 ==> pairs == Down(R2 - Top(Down(R3, ACE)), ACE)
  {
    hide Down, TopAt, MetAt, Top;
    quads, trips, pairs := 0, 0, [];
    ghost var P := R2 - Top(Down(R3, ACE));
    ScanStart(R4, R3, P);
    var v := 14;
    while v > 1
      invariant 1 <= v <= 14
      invariant TopAt(R4, v, quads)
      invariant quads == 0 ==> TopAt(R3, v, trips) && MetAt(P, v, pairs)
    {
      TopTurn(R4, v, quads);
      if quads == 0 {
        TopTurn(R3, v, trips);
        MetTurn(P, v, pairs);
      }
      var c := counts[v];
      if c == 4 && quads == 0 {
        quads := v;
      } else if c == 3 {
        if trips == 0 {
          trips := v;
        } else {
          pairs := pairs + [v];
        }
      } else if c == 2 {
        pairs := pairs + [v];
      }
      v := v - 1;
    }
    TopEnd(R4, quads);
    if quads == 0 {
      TopEnd(R3, trips);
      MetEnd(P, pairs);
    }
  }

  lemma ScanStart(R4: set<int>, R3: set<int>, P: set<int>)
    ensures TopAt(R4, ACE, 0) && TopAt(R3, ACE, 0) && MetAt(P, ACE, [])
  {
  }

  /** The ranks and cards of the flush suit. */
  method FlushValues(cards: seq<Card>, fs: int) returns (fmask: nat, fvals: set<int>)
    requires Distinct(cards) && forall c :: c in cards ==> ValidCard(c)
    ensures fmask < MASKS && MaskRanks(fmask) == Ranks(SuitCards(CardSet(cards), fs))
    ensures fvals == Ranks(SuitCards(CardSet(cards), fs))
  {
    fmask, fvals := 0, {};
    forall r: nat ensures !Bit(0, r) { NoBits(r); }
    for k := 0 to |cards|
      invariant fmask < Shift(15)
      invariant fvals == Ranks(SuitCards(CardSet(cards[..k]), fs))
      invariant forall r: nat :: r < 15 ==> (Bit(fmask, r) <==> r in fvals)
    {
      var c := cards[k];
      TakeOneMore(cards, k);
      ghost var F := SuitCards(CardSet(cards[..k]), fs);
      if c.s == fs {
        OneMoreCard(F, c);
        assert SuitCards(CardSet(cards[..k + 1]), fs) == F + {c};
        WithBitBound(fmask, c.v, 15);
        forall r: nat | r < 15 ensures Bit(WithBit(fmask, c.v), r) <==> r in fvals + {c.v} {
          SetBit(fmask, c.v, r);
        }
        fmask := WithBit(fmask, c.v);
        fvals := fvals + {c.v};
      } else {
        assert SuitCards(CardSet(cards[..k + 1]), fs) == F;
      }
    }
    assert cards[..|cards|] == cards;
    MaskCount();
  }

  lemma MaskCount()
    ensures Shift(15) == MASKS
  {
    assert Shift(5) == 32;
    assert Shift(10) == 1024;
  }

  /** `evaluate`: its result depends on the cards as a set, so not on their order. */
  method EvaluateCards(cards: seq<Card>, table: map<nat, int>) returns (r: Score)
    requires Dealt(cards) && TableOk(table)
    ensures Hand(CardSet(cards)) && r == Evaluate(CardSet(cards))
  {
    ghost var C := CardSet(cards);
    CardSetSize(cards);
    var counts, suits, mask := Tally(cards);
    var fs := 0;
    while fs < 4 && suits[fs] < 5
      invariant 0 <= fs <= 4
      invariant FlushSuit(C, 0) == FlushSuit(C, fs)
    {
      fs := fs + 1;
    }
    if fs < 4 {
      var fmask, fvals := FlushValues(cards, fs);
      var sf := Lookup(table, fmask);
      FlushRanks(C, fs);
      return if sf > 0 then Score(8, [sf]) else Score(5, Down(fvals, ACE)[..5]);
    }
    r := EvaluateRanks(counts, mask, table, C);
  }

  /** The part of `evaluate` below the flush branch. */
  method EvaluateRanks(counts: array<nat>, mask: nat, table: map<nat, int>, ghost C: set<Card>) returns (r: Score)
    requires Hand(C) && FlushSuit(C, 0) == -1 && TableOk(table)
    requires counts.Length == 15 && forall v :: 0 <= v < 15 ==> counts[v] == |RankCards(C, v)|
    requires mask < MASKS && MaskRanks(mask) == Ranks(C)
    ensures r == Evaluate(C)
  {
    forall v | 2 <= v < 15 ensures counts[v] <= 4 && (counts[v] > 0 <==> v in Ranks(C)) {
      RankSize(C, v);
      RankHeld(C, v);
    }
    var quads, trips, pairs := Kinds(counts, RanksOf(C, 4), RanksOf(C, 3), RanksOf(C, 2));
    if quads != 0 {
      var ks := HeldOutside(counts, {quads}, C);
      assert |Kickers(C, {quads})| >= 1 by { var _ := QuadsScore(C, quads); }
      return Score(7, [quads, ks[0]]);
    }
    if trips != 0 && |pairs| > 0 {
      return Score(6, [trips, pairs[0]]);
    }
    var st := Lookup(table, mask);
    if st > 0 {
      return Score(4, [st]);
    }
    r := EvaluateLow(counts, trips, pairs, C);
  }

  method EvaluateLow(counts: array<nat>, trips: int, pairs: seq<int>, ghost C: set<Card>) returns (r: Score)
    requires Hand(C) && |Down(RanksOf(C, 4), ACE)| == 0
    requires counts.Length == 15 && forall v :: 0 <= v < 15 ==> counts[v] == |RankCards(C, v)|
    requires if Down(RanksOf(C, 3), ACE) == [] then trips == 0 else trips == Down(RanksOf(C, 3), ACE)[0]
    requires pairs == Down(RanksOf(C, 2) - Top(Down(RanksOf(C, 3), ACE)), ACE)
    requires trips == 0 || |pairs| == 0
    ensures r == LowScore(C, Down(RanksOf(C, 3), ACE), pairs)
  {
    ghost var low := LowScore(C, Down(RanksOf(C, 3), ACE), pairs);
    if trips != 0 {
      var ks := HeldOutside(counts, {trips}, C);
      return Score(3, [trips, ks[0], ks[1]]);
    }
    if |pairs| >= 2 {
      var ks := HeldOutside(counts, {pairs[0], pairs[1]}, C);
      return Score(2, [pairs[0], pairs[1], ks[0]]);
    }
    if |pairs| == 1 {
      var ks := HeldOutside(counts, {pairs[0]}, C);
      return Score(1, [pairs[0], ks[0], ks[1], ks[2]]);
    }
    var top := HeldOutside(counts, {}, C);
    return Score(0, top[..5]);
  }

  // ------------------------------------------------------ best_five

  /** `itertools.combinations(cards, k)`, in its order. */
  function Combinations(cards: seq<Card>, k: nat): (r: seq<seq<Card>>) {
    if k == 0 then [[]]
    else if |cards| == 0 then []
    else With(cards[0], Combinations(cards[1..], k - 1)) + Combinations(cards[1..], k)
  }

  function With(c: Card, combos: seq<seq<Card>>): (r: seq<seq<Card>>)
    ensures |r| == |combos| && forall i :: 0 <= i < |r| ==> r[i] == [c] + combos[i]
  {
    seq(|combos|, i requires 0 <= i < |combos| => [c] + combos[i])
  }

  lemma {:induction false} CombinationsSound(cards: seq<Card>, k: nat, i: nat)
    requires Distinct(cards) && i < |Combinations(cards, k)|
    ensures |Combinations(cards, k)[i]| == k && Distinct(Combinations(cards, k)[i])
    ensures forall c :: c in Combinations(cards, k)[i] ==> c in cards
  {
    hide Combinations;
    if k == 0 {
      NoneTaken(cards);
    } else {
      TakenOrNot(cards, k);
      var rest, n := cards[1..], |Combinations(cards[1..], k - 1)|;
      if i < n {
        CombinationsSound(rest, k - 1, i);
        assert cards[0] !in rest;
      } else {
        CombinationsSound(rest, k, i - n);
      }
    }
  }

  lemma NoneTaken(cards: seq<Card>)
    ensures Combinations(cards, 0) == [[]]
  {
  }

  /** A combination takes the first card and a combination of the others, or not the first card. */
  lemma TakenOrNot(cards: seq<Card>, k: nat)
    requires k > 0
    ensures |cards| == 0 ==> Combinations(cards, k) == []
    ensures |cards| > 0 ==> Combinations(cards, k) == With(cards[0], Combinations(cards[1..], k - 1)) + Combinations(cards[1..], k)
  {
  }

  /** The cards of `S`, in the order of `cards`. */
  function Keep(cards: seq<Card>, S: set<Card>): (r: seq<Card>) {
    if |cards| == 0 then []
    else (if cards[0] in S then [cards[0]] else []) + Keep(cards[1..], S)
  }

  lemma {:induction false} KeepHas(cards: seq<Card>, S: set<Card>)
    ensures forall c :: c in Keep(cards, S) <==> c in cards && c in S
  {
    if |cards| > 0 {
      KeepHas(cards[1..], S);
      assert forall c :: c in cards <==> c == cards[0] || c in cards[1..];
    }
  }

  lemma {:induction false} KeepDistinct(cards: seq<Card>, S: set<Card>)
    requires Distinct(cards)
    ensures Distinct(Keep(cards, S))
  {
    if |cards| > 0 {
      KeepDistinct(cards[1..], S);
      KeepHas(cards[1..], S);
      assert cards[0] !in cards[1..];
    }
  }

  lemma {:induction false} KeepIsCombination(cards: seq<Card>, S: set<Card>)
    ensures Keep(cards, S) in Combinations(cards, |Keep(cards, S)|)
  {
    if |cards| > 0 {
      var rest, k := cards[1..], |Keep(cards, S)|;
      KeepIsCombination(rest, S);
      if cards[0] in S {
        var A := Combinations(rest, k - 1);
        var j :| 0 <= j < |A| && A[j] == Keep(rest, S);
        assert With(cards[0], A)[j] == Keep(cards, S);
        assert Combinations(cards, k)[j] == Keep(cards, S);
      } else {
        assert Keep(cards, S) == Keep(rest, S);
      }
    }
  }

  lemma CombinationsComplete(cards: seq<Card>, S: set<Card>) returns (i: nat)
    requires Distinct(cards) && S <= CardSet(cards)
    ensures i < |Combinations(cards, |S|)| && CardSet(Combinations(cards, |S|)[i]) == S
  {
    KeepHas(cards, S);
    KeepDistinct(cards, S);
    var x := Keep(cards, S);
    assert CardSet(x) == S;
    CardSetSize(x);
    KeepIsCombination(cards, S);
    i :| 0 <= i < |Combinations(cards, |x|)| && Combinations(cards, |x|)[i] == x;
  }

  lemma ComboHand(cards: seq<Card>, C: set<Card>, i: nat)
    requires Dealt(cards) && C == CardSet(cards) && Hand(C) && i < |Combinations(cards, 5)|
    ensures Dealt(Combinations(cards, 5)[i]) && Hand(CardSet(Combinations(cards, 5)[i]))
    ensures ScoreLe(Evaluate(CardSet(Combinations(cards, 5)[i])), Evaluate(C))
  {
    CombinationsSound(cards, 5, i);
    var x := Combinations(cards, 5)[i];
    CardSetSize(x);
    EvaluateBound(C, CardSet(x));
  }

  /** Some combination attains the score of the whole hand. */
  lemma ComboAttains(cards: seq<Card>, C: set<Card>) returns (w: nat)
    requires Dealt(cards) && C == CardSet(cards) && Hand(C)
    ensures w < |Combinations(cards, 5)|
    ensures Hand(CardSet(Combinations(cards, 5)[w]))
    ensures Evaluate(CardSet(Combinations(cards, 5)[w])) == Evaluate(C)
  {
    EvaluateIsMaxOfFive(C);
    var S: set<Card> :| S <= C && |S| == 5 && Evaluate(S) == Evaluate(C);
    w := CombinationsComplete(cards, S);
  }

  ghost predicate ScoresOf(combos: seq<seq<Card>>, scores: seq<Score>) {
    |combos| == |scores| && forall i :: 0 <= i < |combos| ==>
      Dealt(combos[i]) && Hand(CardSet(combos[i])) && scores[i] == Evaluate(CardSet(combos[i]))
  }

  method ScoreAt(combos: seq<seq<Card>>, k: nat, table: map<nat, int>, ghost scores: seq<Score>) returns (sc: Score)
    requires TableOk(table) && ScoresOf(combos, scores) && k < |combos|
    ensures sc == scores[k]
  {
    sc := EvaluateCards(combos[k], table);
  }

  /** Among the first `k` scores, `at` is the first that reaches `top`, if one does. */
  ghost predicate FirstAt(scores: seq<Score>, top: Score, k: nat, at: nat) {
    at < k <= |scores| && forall i :: 0 <= i < k && scores[i] == top ==> at <= i && scores[at] == top
  }

  lemma FirstAtStep(scores: seq<Score>, top: Score, k: nat, at: nat)
    requires FirstAt(scores, top, k, at) && k < |scores|
    requires ScoreLe(scores[k], top) && ScoreLe(scores[at], top)
    ensures FirstAt(scores, top, k + 1, if ScoreLe(scores[k], scores[at]) then at else k)
  {
    ScoreOrder(scores[k], scores[at]);
  }

  /** The loop of `best_five`: the first combination whose score no other exceeds. */
  method FirstBest(combos: seq<seq<Card>>, table: map<nat, int>, ghost scores: seq<Score>, ghost w: nat)
    returns (at: nat)
    requires TableOk(table) && ScoresOf(combos, scores) && w < |combos|
    requires forall i :: 0 <= i < |scores| ==> ScoreLe(scores[i], scores[w])
    ensures at < |combos| && scores[at] == scores[w]
    ensures forall i :: 0 <= i < at ==> scores[i] != scores[w]
  {
    at := 0;
    var score := ScoreAt(combos, 0, table, scores);
    for k := 1 to |combos|
      invariant FirstAt(scores, scores[w], k, at) && score == scores[at]
    {
      var sc := ScoreAt(combos, k, table, scores);
      FirstAtStep(scores, scores[w], k, at);
      if !ScoreLe(sc, score) {
        at, score := k, sc;
      }
    }
  }

  /** `best_five`: five of the cards, and they score as the whole hand does. */
  method BestFive(cards: seq<Card>, table: map<nat, int>) returns (best: seq<Card>)
    requires Dealt(cards) && TableOk(table)
    ensures |best| == 5 && Distinct(best) && (forall c :: c in best ==> c in cards)
    ensures Hand(CardSet(cards)) && Hand(CardSet(best)) && Evaluate(CardSet(best)) == Evaluate(CardSet(cards))
  {
    ghost var C := CardSet(cards);
    CardSetSize(cards);
    ghost var w := ComboAttains(cards, C);
    var combos := Combinations(cards, 5);
    forall i | 0 <= i < |combos|
      ensures Dealt(combos[i]) && Hand(CardSet(combos[i])) && ScoreLe(Evaluate(CardSet(combos[i])), Evaluate(C))
    {
      ComboHand(cards, C, i);
    }
    ghost var scores := seq(|combos|, i requires 0 <= i < |combos| => Evaluate(CardSet(combos[i])));
    var at := FirstBest(combos, table, scores, w);
    best := combos[at];
    CombinationsSound(cards, 5, at);
  }
}
