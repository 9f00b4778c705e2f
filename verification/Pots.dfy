/** Main pot and side pots (`_pot_layers` in holdem/engine.py). */
module Pots {
  import opened Sums

  datatype Pot = Pot(amount: int, eligible: seq<nat>)

  function Min(a: int, b: int): int {
    if a <= b then a else b
  }

  function Total(pots: seq<Pot>): (t: int) {
    if |pots| == 0 then 0 else Total(pots[..|pots| - 1]) + pots[|pots| - 1].amount
  }

  /** Chips a seat is listed for: the pots it may win. */
  function Listed(pots: seq<Pot>, seat: nat): (t: int) {
    if |pots| == 0 then 0
    else
      var last := pots[|pots| - 1];
      Listed(pots[..|pots| - 1], seat) + (if seat in last.eligible then last.amount else 0)
  }

  /** The stakes, each counted only up to `k`: what a stake of `k` can match. */
  function Matched(live: seq<int>, k: int): (t: int) {
    if |live| == 0 then 0 else Matched(live[..|live| - 1], k) + Min(live[|live| - 1], k)
  }

  // ------------------------------------------------ the distinct stakes

  function Insert(levels: seq<int>, x: int): (r: seq<int>) {
    if |levels| == 0 || x < levels[0] then [x] + levels
    else if x == levels[0] then levels
    else [levels[0]] + Insert(levels[1..], x)
  }

  /** `sorted({amount for amount in live if amount > 0})`. */
  function Levels(live: seq<int>): (r: seq<int>) {
    if |live| == 0 then []
    else
      var rest := Levels(live[1..]);
      if live[0] > 0 then Insert(rest, live[0]) else rest
  }

  predicate Ascending(s: seq<int>) {
    forall i, j :: 0 <= i < j < |s| ==> s[i] < s[j]
  }

  lemma {:induction false} InsertSorted(levels: seq<int>, x: int)
    requires Ascending(levels)
    ensures Ascending(Insert(levels, x))
    ensures forall y :: y in Insert(levels, x) <==> y == x || y in levels
  {
    if |levels| > 0 && x > levels[0] {
      InsertSorted(levels[1..], x);
      var r := Insert(levels[1..], x);
      forall k | 0 <= k < |r| ensures levels[0] < r[k] {
        assert r[k] in r;
        if r[k] != x { assert r[k] in levels[1..]; }
      }
      assert forall y :: y in levels <==> y == levels[0] || y in levels[1..];
    }
  }

  lemma {:induction false} LevelsAreTheStakes(live: seq<int>)
    ensures Ascending(Levels(live))
    ensures forall y :: y in Levels(live) <==> y > 0 && y in live
  {
    if |live| > 0 {
      LevelsAreTheStakes(live[1..]);
      if live[0] > 0 { InsertSorted(Levels(live[1..]), live[0]); }
      assert forall y :: y in live <==> y == live[0] || y in live[1..];
    }
  }

  // ------------------------------------------------------ the layers

  predicate Seats(contenders: seq<nat>, n: nat) {
    forall k :: 0 <= k < |contenders| ==> contenders[k] < n
  }

  /** `[seat for seat in contenders if live[seat] >= level]`. */
  function Eligible(contenders: seq<nat>, live: seq<int>, level: int): (r: seq<nat>)
    requires Seats(contenders, |live|)
  {
    if |contenders| == 0 then []
    else
      var rest := Eligible(contenders[1..], live, level);
      if live[contenders[0]] >= level then [contenders[0]] + rest else rest
  }

  lemma {:induction false} EligibleHas(contenders: seq<nat>, live: seq<int>, level: int)
    requires Seats(contenders, |live|)
    ensures forall c :: c in Eligible(contenders, live, level) <==> c in contenders && live[c] >= level
  {
    if |contenders| > 0 {
      EligibleHas(contenders[1..], live, level);
      assert forall c :: c in contenders <==> c == contenders[0] || c in contenders[1..];
    }
  }

  /** `sum(min(stake, level) - min(stake, previous) for stake in live)`. */
  function LayerAmount(live: seq<int>, level: int, previous: int): (t: int) {
    if |live| == 0 then 0
    else LayerAmount(live[..|live| - 1], level, previous)
         + Min(live[|live| - 1], level) - Min(live[|live| - 1], previous)
  }

  lemma {:induction false} LayerIsDifference(live: seq<int>, level: int, previous: int)
    ensures LayerAmount(live, level, previous) == Matched(live, level) - Matched(live, previous)
  {
    if |live| > 0 { LayerIsDifference(live[..|live| - 1], level, previous); }
  }

  /** One turn of the loop: add the layer to the last pot, as a new pot, or not at all. */
  function AddLayer(pots: seq<Pot>, amount: int, eligible: seq<nat>): (r: seq<Pot>) {
    var n := |pots|;
    if |eligible| == 0 then pots
    else if n > 0 && pots[n - 1].eligible == eligible then
      pots[..n - 1] + [Pot(pots[n - 1].amount + amount, eligible)]
    else pots + [Pot(amount, eligible)]
  }

  function Layers(live: seq<int>, contenders: seq<nat>, levels: seq<int>, previous: int, pots: seq<Pot>): (r: seq<Pot>)
    requires Seats(contenders, |live|)
    decreases |levels|
  {
    if |levels| == 0 then pots
    else
      Layers(live, contenders, levels[1..], levels[0],
             AddLayer(pots, LayerAmount(live, levels[0], previous), Eligible(contenders, live, levels[0])))
  }

  function DeadPot(dead: seq<int>, contenders: seq<nat>): (r: seq<Pot>) {
    if Sum(dead) != 0 then [Pot(Sum(dead), contenders)] else []
  }

  function WithRemainder(pots: seq<Pot>, remaining: int, contenders: seq<nat>): (r: seq<Pot>) {
    var n := |pots|;
    if remaining == 0 then pots
    else if n > 0 then pots[..n - 1] + [Pot(pots[n - 1].amount + remaining, pots[n - 1].eligible)]
    else [Pot(remaining, contenders)]
  }

  function PotLayers(live: seq<int>, dead: seq<int>, contenders: seq<nat>): (r: seq<Pot>)
    requires Seats(contenders, |live|)
  {
    var pots := Layers(live, contenders, Levels(live), 0, DeadPot(dead, contenders));
    WithRemainder(pots, Sum(live) + Sum(dead) - Total(pots), contenders)
  }

  lemma LayersStep(live: seq<int>, contenders: seq<nat>, levels: seq<int>, previous: int, pots: seq<Pot>)
    requires Seats(contenders, |live|) && |levels| > 0
    ensures Layers(live, contenders, levels, previous, pots)
         == Layers(live, contenders, levels[1..], levels[0],
                   AddLayer(pots, LayerAmount(live, levels[0], previous), Eligible(contenders, live, levels[0])))
  {
  }

  /** The layer loop of `_pot_layers`. */
  method ComputeLayers(live: seq<int>, contenders: seq<nat>, levels: seq<int>, start: seq<Pot>) returns (pots: seq<Pot>)
    requires Seats(contenders, |live|)
    ensures pots == Layers(live, contenders, levels, 0, start)
  {
    pots := start;
    var previous := 0;
    var k := 0;
    assert levels[0..] == levels;
    while k < |levels|
      invariant 0 <= k <= |levels|
      invariant Layers(live, contenders, levels, 0, start) == Layers(live, contenders, levels[k..], previous, pots)
    {
      var level := levels[k];
      var amount := LayerAmount(live, level, previous);
      var eligible := Eligible(contenders, live, level);
      LayersStep(live, contenders, levels[k..], previous, pots);
      assert levels[k..][1..] == levels[k + 1..];
      previous := level;
      k := k + 1;
      if |eligible| == 0 {
        continue;
      }
      var n := |pots|;
      if n > 0 && pots[n - 1].eligible == eligible {
        pots := pots[..n - 1] + [Pot(pots[n - 1].amount + amount, eligible)];
      } else {
        pots := pots + [Pot(amount, eligible)];
      }
    }
  }

  /** `_pot_layers`. */
  method ComputePots(live: seq<int>, dead: seq<int>, contenders: seq<nat>) returns (pots: seq<Pot>)
    requires Seats(contenders, |live|)
    ensures pots == PotLayers(live, dead, contenders)
  {
    pots := [];
    var deadTotal := Sum(dead);
    if deadTotal != 0 {
      pots := [Pot(deadTotal, contenders)];
    }
    pots := ComputeLayers(live, contenders, Levels(live), pots);
    var remaining := Sum(live) + deadTotal - Total(pots);
    if remaining != 0 {
      var n := |pots|;
      if n > 0 {
        pots := pots[..n - 1] + [Pot(pots[n - 1].amount + remaining, pots[n - 1].eligible)];
      } else {
        pots := [Pot(remaining, contenders)];
      }
    }
  }

  // ---------------------------------------------------- conservation

  lemma TotalAppend(pots: seq<Pot>, p: Pot)
    ensures Total(pots + [p]) == Total(pots) + p.amount
  {
    assert (pots + [p])[..|pots|] == pots;
  }

  lemma TotalWithRemainder(pots: seq<Pot>, remaining: int, contenders: seq<nat>)
    ensures Total(WithRemainder(pots, remaining, contenders)) == Total(pots) + remaining
  {
    if remaining != 0 {
      if |pots| > 0 {
        TotalAppend(pots[..|pots| - 1], WithRemainder(pots, remaining, contenders)[|pots| - 1]);
      } else {
        TotalAppend([], Pot(remaining, contenders));
        assert [] + [Pot(remaining, contenders)] == [Pot(remaining, contenders)];
      }
    }
  }

  /** Every live and dead chip is in exactly one pot. */
  lemma PotsHoldAllChips(live: seq<int>, dead: seq<int>, contenders: seq<nat>)
    requires Seats(contenders, |live|)
    ensures Total(PotLayers(live, dead, contenders)) == Sum(live) + Sum(dead)
  {
    var pots := Layers(live, contenders, Levels(live), 0, DeadPot(dead, contenders));
    TotalWithRemainder(pots, Sum(live) + Sum(dead) - Total(pots), contenders);
  }

  // ------------------------------------------------- side pots are exact

  /** The largest live stake among the contenders. */
  ghost predicate IsTop(live: seq<int>, contenders: seq<nat>, top: int)
    requires Seats(contenders, |live|)
  {
    (exists c :: c in contenders && live[c] == top) && forall c :: c in contenders ==> live[c] <= top
  }

  predicate Nonneg(s: seq<int>) {
    forall i :: 0 <= i < |s| ==> s[i] >= 0
  }

  lemma {:induction false} MatchedZero(live: seq<int>)
    requires Nonneg(live)
    ensures Matched(live, 0) == 0
  {
    if |live| > 0 { MatchedZero(live[..|live| - 1]); }
  }

  lemma {:induction false} MatchedGrows(live: seq<int>, a: int, b: int)
    requires a <= b
    ensures Matched(live, a) <= Matched(live, b)
    ensures a < b && b in live ==> Matched(live, a) < Matched(live, b)
  {
    if |live| > 0 { MatchedGrows(live[..|live| - 1], a, b); }
  }

  lemma {:induction false} MatchedAll(live: seq<int>, k: int)
    ensures Matched(live, k) <= Sum(live)
    ensures (forall i :: 0 <= i < |live| ==> live[i] <= k) ==> Matched(live, k) == Sum(live)
  {
    if |live| > 0 { MatchedAll(live[..|live| - 1], k); }
  }

  lemma {:induction false} EligibleAll(contenders: seq<nat>, live: seq<int>)
    requires Seats(contenders, |live|) && Nonneg(live)
    ensures Eligible(contenders, live, 0) == contenders
  {
    if |contenders| > 0 { EligibleAll(contenders[1..], live); }
  }

  /** Raising the level only drops seats, and drops one unless the list stays the same. */
  lemma {:induction false} EligibleShrinks(contenders: seq<nat>, live: seq<int>, a: int, b: int)
    requires Seats(contenders, |live|) && a <= b
    ensures |Eligible(contenders, live, b)| <= |Eligible(contenders, live, a)|
    ensures |Eligible(contenders, live, b)| == |Eligible(contenders, live, a)|
            ==> Eligible(contenders, live, b) == Eligible(contenders, live, a)
  {
    if |contenders| > 0 { EligibleShrinks(contenders[1..], live, a, b); }
  }

  lemma {:induction false} NoneEligible(contenders: seq<nat>, live: seq<int>, level: int)
    requires Seats(contenders, |live|) && forall c :: c in contenders ==> live[c] < level
    ensures Eligible(contenders, live, level) == []
  {
    if |contenders| > 0 {
      assert contenders[0] in contenders;
      NoneEligible(contenders[1..], live, level);
    }
  }

  lemma ListedAppend(pots: seq<Pot>, p: Pot, seat: nat)
    ensures Listed(pots + [p], seat) == Listed(pots, seat) + (if seat in p.eligible then p.amount else 0)
  {
    assert (pots + [p])[..|pots|] == pots;
  }

  lemma ListedLayer(pots: seq<Pot>, amount: int, eligible: seq<nat>, seat: nat)
    requires |eligible| > 0
    ensures Listed(AddLayer(pots, amount, eligible), seat)
         == Listed(pots, seat) + (if seat in eligible then amount else 0)
  {
    var n := |pots|;
    if n > 0 && pots[n - 1].eligible == eligible {
      ListedAppend(pots[..n - 1], Pot(pots[n - 1].amount + amount, eligible), seat);
    } else {
      ListedAppend(pots, Pot(amount, eligible), seat);
    }
  }

  /** Pots built from the stakes up to `previous`; `thr[k]` is the lowest stake that shares pot `k`. */
  ghost predicate Shaped(live: seq<int>, contenders: seq<nat>, pots: seq<Pot>, thr: seq<int>, previous: int)
    requires Seats(contenders, |live|)
  {
    && |thr| == |pots|
    && (forall k :: 0 <= k < |pots| ==> pots[k].amount > 0 && |pots[k].eligible| > 0)
    && (forall k :: 0 <= k < |pots| ==> thr[k] <= previous && pots[k].eligible == Eligible(contenders, live, thr[k]))
    && (forall j, k :: 0 <= j < k < |pots| ==> thr[j] < thr[k])
    && (forall j, k :: 0 <= j < k < |pots| ==> |pots[k].eligible| < |pots[j].eligible|)
  }

  ghost predicate ListedUpTo(live: seq<int>, contenders: seq<nat>, deadTotal: int, pots: seq<Pot>, previous: int)
    requires Seats(contenders, |live|)
  {
    forall c :: c in contenders ==> Listed(pots, c) == deadTotal + Matched(live, Min(previous, live[c]))
  }

  /** Once the top stake is layered, the last pot belongs to the seats that staked it. */
  ghost predicate TopLast(live: seq<int>, contenders: seq<nat>, pots: seq<Pot>, previous: int)
    requires Seats(contenders, |live|)
  {
    forall top :: IsTop(live, contenders, top) && 0 < top <= previous ==>
      |pots| > 0 && pots[|pots| - 1].eligible == Eligible(contenders, live, top)
  }

  ghost predicate Exact(live: seq<int>, contenders: seq<nat>, deadTotal: int, pots: seq<Pot>, thr: seq<int>, previous: int)
    requires Seats(contenders, |live|)
  {
    && Shaped(live, contenders, pots, thr, previous)
    && ListedUpTo(live, contenders, deadTotal, pots, previous)
    && TopLast(live, contenders, pots, previous)
  }

  lemma ExactStart(live: seq<int>, dead: seq<int>, contenders: seq<nat>) returns (thr: seq<int>)
    requires Seats(contenders, |live|) && Nonneg(live) && Nonneg(dead) && |contenders| > 0
    ensures Exact(live, contenders, Sum(dead), DeadPot(dead, contenders), thr, 0)
  {
    var pots := DeadPot(dead, contenders);
    thr := if |pots| > 0 then [0] else [];
    EligibleAll(contenders, live);
    SumNonneg(dead);
    MatchedZero(live);
    forall c | c in contenders ensures Listed(pots, c) == Sum(dead) + Matched(live, Min(0, live[c])) {
      if |pots| > 0 {
        ListedAppend([], pots[0], c);
        assert [] + [pots[0]] == pots;
      }
    }
  }

  /** No stake lies strictly between two neighbouring levels. */
  ghost predicate NextLevel(live: seq<int>, previous: int, level: int) {
    previous < level && level in live && forall x :: x in live ==> x <= previous || x >= level
  }

  lemma ShapedStep(live: seq<int>, contenders: seq<nat>, pots: seq<Pot>, thr: seq<int>, previous: int, level: int, amount: int)
    returns (thr': seq<int>)
    requires Seats(contenders, |live|) && previous < level && amount > 0
    requires Shaped(live, contenders, pots, thr, previous)
    ensures Shaped(live, contenders, AddLayer(pots, amount, Eligible(contenders, live, level)), thr', level)
  {
    var n, eligible := |pots|, Eligible(contenders, live, level);
    if |eligible| == 0 || (n > 0 && pots[n - 1].eligible == eligible) {
      thr' := thr;
      var pots' := AddLayer(pots, amount, eligible);
      assert forall k :: 0 <= k < n ==> pots'[k].eligible == pots[k].eligible && pots'[k].amount >= pots[k].amount;
    } else {
      thr' := thr + [level];
      var pots' := AddLayer(pots, amount, eligible);
      assert |pots'| == n + 1 && pots'[n] == Pot(amount, eligible);
      assert forall k :: 0 <= k < n ==> pots'[k] == pots[k] && thr'[k] == thr[k];
      if n > 0 { EligibleShrinks(contenders, live, thr[n - 1], level); }
    }
  }

  lemma ListedStep(live: seq<int>, contenders: seq<nat>, deadTotal: int, pots: seq<Pot>, previous: int, level: int)
    requires Seats(contenders, |live|) && NextLevel(live, previous, level)
    requires ListedUpTo(live, contenders, deadTotal, pots, previous)
    ensures ListedUpTo(live, contenders, deadTotal,
                       AddLayer(pots, LayerAmount(live, level, previous), Eligible(contenders, live, level)), level)
  {
    var amount, eligible := LayerAmount(live, level, previous), Eligible(contenders, live, level);
    var pots' := AddLayer(pots, amount, eligible);
    LayerIsDifference(live, level, previous);
    EligibleHas(contenders, live, level);
    forall c | c in contenders ensures Listed(pots', c) == deadTotal + Matched(live, Min(level, live[c])) {
      assert live[c] in live;
      if |eligible| > 0 {
        ListedLayer(pots, amount, eligible, c);
      } else {
        assert c !in eligible;
      }
    }
  }

  lemma AddedLast(pots: seq<Pot>, amount: int, eligible: seq<nat>)
    requires |eligible| > 0
    ensures |AddLayer(pots, amount, eligible)| > 0
    ensures AddLayer(pots, amount, eligible)[|AddLayer(pots, amount, eligible)| - 1].eligible == eligible
  {
  }

  lemma TopLastStep(live: seq<int>, contenders: seq<nat>, pots: seq<Pot>, previous: int, level: int, amount: int)
    requires Seats(contenders, |live|) && NextLevel(live, previous, level)
    requires TopLast(live, contenders, pots, previous)
    ensures TopLast(live, contenders, AddLayer(pots, amount, Eligible(contenders, live, level)), level)
  {
    var eligible := Eligible(contenders, live, level);
    var pots' := AddLayer(pots, amount, eligible);
    EligibleHas(contenders, live, level);
    forall top | IsTop(live, contenders, top) && 0 < top <= level
      ensures |pots'| > 0 && pots'[|pots'| - 1].eligible == Eligible(contenders, live, top)
    {
      var c :| c in contenders && live[c] == top;
      assert live[c] in live;
      if top == level {
        assert c in eligible;
        AddedLast(pots, amount, eligible);
      } else {
        NoneEligible(contenders, live, level);
        assert pots' == pots;
      }
    }
  }

  lemma ExactStep(live: seq<int>, contenders: seq<nat>, deadTotal: int, pots: seq<Pot>, thr: seq<int>, previous: int, level: int)
    returns (thr': seq<int>)
    requires Seats(contenders, |live|)
    requires Exact(live, contenders, deadTotal, pots, thr, previous) && NextLevel(live, previous, level)
    ensures Exact(live, contenders, deadTotal,
                  AddLayer(pots, LayerAmount(live, level, previous), Eligible(contenders, live, level)), thr', level)
  {
    LayerIsDifference(live, level, previous);
    MatchedGrows(live, previous, level);
    thr' := ShapedStep(live, contenders, pots, thr, previous, level, LayerAmount(live, level, previous));
    ListedStep(live, contenders, deadTotal, pots, previous, level);
    TopLastStep(live, contenders, pots, previous, level, LayerAmount(live, level, previous));
  }

  lemma {:induction false} ExactLayers(live: seq<int>, contenders: seq<nat>, deadTotal: int, levels: seq<int>, previous: int,
                                       pots: seq<Pot>, thr: seq<int>)
    returns (thr': seq<int>, last: int)
    requires Seats(contenders, |live|) && Nonneg(live) && previous >= 0
    requires Exact(live, contenders, deadTotal, pots, thr, previous)
    requires Ascending(levels) && forall x :: x in levels <==> x > previous && x in live
    ensures Exact(live, contenders, deadTotal, Layers(live, contenders, levels, previous, pots), thr', last)
    ensures forall x :: x in live ==> x <= last
    decreases |levels|
  {
    if |levels| == 0 {
      thr', last := thr, previous;
    } else {
      var level := levels[0];
      assert level in levels;
      forall x | x in live ensures x <= previous || x >= level {
        if x > previous {
          var i :| 0 <= i < |levels| && levels[i] == x;
        }
      }
      var t := ExactStep(live, contenders, deadTotal, pots, thr, previous, level);
      forall x ensures x in levels[1..] <==> x > level && x in live {
        assert x in levels <==> x == level || x in levels[1..];
        if x in levels[1..] {
          var i :| 0 <= i < |levels[1..]| && levels[1..][i] == x;
          assert levels[0] < levels[i + 1];
        }
      }
      thr', last := ExactLayers(live, contenders, deadTotal, levels[1..], level,
                                AddLayer(pots, LayerAmount(live, level, previous), Eligible(contenders, live, level)), t);
    }
  }

  lemma ListedTotal(pots: seq<Pot>, seat: nat)
    requires Everywhere(pots, seat)
    ensures Listed(pots, seat) == Total(pots)
  {
    if |pots| > 0 {
      ListedTotal(pots[..|pots| - 1], seat);
    }
  }

  lemma ListedBound(pots: seq<Pot>, seat: nat)
    requires forall k :: 0 <= k < |pots| ==> pots[k].amount >= 0
    ensures 0 <= Listed(pots, seat) <= Total(pots)
  {
    if |pots| > 0 {
      ListedBound(pots[..|pots| - 1], seat);
    }
  }

  /** Every pot is won by somebody, and by fewer seats than the pot below it. */
  ghost predicate Chain(pots: seq<Pot>, contenders: seq<nat>) {
    && (forall k :: 0 <= k < |pots| ==> pots[k].amount > 0 && |pots[k].eligible| > 0)
    && (forall k :: 0 <= k < |pots| ==> Within(pots[k].eligible, contenders))
    && (Different(contenders) ==> forall k :: 0 <= k < |pots| ==> Different(pots[k].eligible))
    && (forall j, k :: 0 <= j < k < |pots| ==> ProperlyWithin(pots[k].eligible, pots[j].eligible))
  }

  predicate Different(s: seq<nat>) {
    forall i, j :: 0 <= i < j < |s| ==> s[i] != s[j]
  }

  lemma {:induction false} EligibleDifferent(contenders: seq<nat>, live: seq<int>, level: int)
    requires Seats(contenders, |live|) && Different(contenders)
    ensures Different(Eligible(contenders, live, level))
  {
    if |contenders| > 0 {
      EligibleDifferent(contenders[1..], live, level);
      EligibleHas(contenders[1..], live, level);
    }
  }

  predicate Within(a: seq<nat>, b: seq<nat>) {
    forall c :: c in a ==> c in b
  }

  predicate ProperlyWithin(a: seq<nat>, b: seq<nat>) {
    Within(a, b) && |a| < |b|
  }

  lemma ShapedChain(live: seq<int>, contenders: seq<nat>, pots: seq<Pot>, thr: seq<int>, previous: int)
    requires Seats(contenders, |live|) && Shaped(live, contenders, pots, thr, previous)
    ensures Chain(pots, contenders)
  {
    forall k | 0 <= k < |pots| ensures Within(pots[k].eligible, contenders) {
      EligibleHas(contenders, live, thr[k]);
    }
    if Different(contenders) {
      forall k | 0 <= k < |pots| ensures Different(pots[k].eligible) {
        EligibleDifferent(contenders, live, thr[k]);
      }
    }
    forall j, k | 0 <= j < k < |pots| ensures ProperlyWithin(pots[k].eligible, pots[j].eligible) {
      assert thr[j] < thr[k];
      EligibleHas(contenders, live, thr[j]);
      EligibleHas(contenders, live, thr[k]);
    }
  }

  /** A contender that staked the most is in every pot. */
  ghost predicate TopEverywhere(live: seq<int>, contenders: seq<nat>, top: int, pots: seq<Pot>)
    requires Seats(contenders, |live|)
  {
    forall c :: c in contenders && live[c] == top ==> Everywhere(pots, c)
  }

  predicate Everywhere(pots: seq<Pot>, c: nat) {
    forall k :: 0 <= k < |pots| ==> c in pots[k].eligible
  }

  /** Any other contender is listed for the dead money and for what its own stake matches. */
  ghost predicate ListedExactly(live: seq<int>, deadTotal: int, contenders: seq<nat>, top: int, pots: seq<Pot>)
    requires Seats(contenders, |live|)
  {
    forall c :: c in contenders && live[c] < top ==> Listed(pots, c) == deadTotal + Matched(live, live[c])
  }

  lemma TopInEvery(live: seq<int>, contenders: seq<nat>, pots: seq<Pot>, thr: seq<int>, previous: int, top: int)
    requires Seats(contenders, |live|) && Shaped(live, contenders, pots, thr, previous)
    requires IsTop(live, contenders, top)
    ensures TopEverywhere(live, contenders, top, pots)
  {
    forall c | c in contenders && live[c] == top ensures Everywhere(pots, c) {
      forall k | 0 <= k < |pots| ensures c in pots[k].eligible {
        EligibleHas(contenders, live, thr[k]);
        var e := pots[k].eligible[0];
        assert e in pots[k].eligible;
        assert thr[k] <= live[e] <= top;
      }
    }
  }

  /** No contender matches more than is staked. */
  lemma RemainderSize(live: seq<int>, dead: seq<int>, contenders: seq<nat>, pots: seq<Pot>, last: int, top: int)
    requires Seats(contenders, |live|) && IsTop(live, contenders, top)
    requires ListedUpTo(live, contenders, Sum(dead), pots, last) && TopEverywhere(live, contenders, top, pots)
    requires forall x :: x in live ==> x <= last
    ensures Total(pots) <= Sum(live) + Sum(dead)
    ensures |contenders| > 0
  {
    var t :| t in contenders && live[t] == top;
    assert live[t] in live;
    ListedTotal(pots, t);
    MatchedAll(live, top);
  }

  lemma RemainderShape(pots: seq<Pot>, remaining: int, contenders: seq<nat>, r: seq<Pot>)
    requires r == WithRemainder(pots, remaining, contenders) && remaining >= 0
    ensures |pots| > 0 ==> |r| == |pots| && forall k :: 0 <= k < |r| ==>
              r[k].eligible == pots[k].eligible && r[k].amount >= pots[k].amount
    ensures |pots| == 0 ==> r == [] || (remaining > 0 && r == [Pot(remaining, contenders)])
  {
  }

  lemma RemainderChain(pots: seq<Pot>, remaining: int, contenders: seq<nat>, r: seq<Pot>)
    requires Chain(pots, contenders) && remaining >= 0 && |contenders| > 0
    requires r == WithRemainder(pots, remaining, contenders)
    ensures Chain(r, contenders)
  {
    RemainderShape(pots, remaining, contenders, r);
  }

  /** The forfeited excess goes to the top pot, so it reaches none but the top contenders. */
  lemma RemainderListed(live: seq<int>, deadTotal: int, contenders: seq<nat>, pots: seq<Pot>, last: int, top: int,
                        remaining: int, r: seq<Pot>)
    requires Seats(contenders, |live|) && Nonneg(live) && IsTop(live, contenders, top)
    requires ListedUpTo(live, contenders, deadTotal, pots, last) && TopLast(live, contenders, pots, last)
    requires forall x :: x in live ==> x <= last
    requires r == WithRemainder(pots, remaining, contenders)
    ensures ListedExactly(live, deadTotal, contenders, top, r)
  {
    var n := |pots|;
    var t :| t in contenders && live[t] == top;
    assert live[t] in live;
    forall c | c in contenders && live[c] < top ensures Listed(r, c) == deadTotal + Matched(live, live[c]) {
      assert live[c] in live;
      EligibleHas(contenders, live, top);
      assert n > 0 && c !in pots[n - 1].eligible;
      if remaining != 0 {
        ListedAppend(pots[..n - 1], r[n - 1], c);
      }
    }
  }

  lemma RemainderTop(live: seq<int>, contenders: seq<nat>, top: int, pots: seq<Pot>, remaining: int, r: seq<Pot>)
    requires Seats(contenders, |live|) && TopEverywhere(live, contenders, top, pots) && remaining >= 0
    requires r == WithRemainder(pots, remaining, contenders)
    ensures TopEverywhere(live, contenders, top, r)
  {
    RemainderShape(pots, remaining, contenders, r);
    forall c | c in contenders && live[c] == top ensures Everywhere(r, c) {
      assert Everywhere(pots, c);
    }
  }

  /** Where the loop ends, before the remainder is placed. */
  lemma LoopExact(live: seq<int>, dead: seq<int>, contenders: seq<nat>, loop: seq<Pot>) returns (thr: seq<int>, last: int)
    requires Seats(contenders, |live|) && Nonneg(live) && Nonneg(dead) && |contenders| > 0
    requires loop == Layers(live, contenders, Levels(live), 0, DeadPot(dead, contenders))
    ensures Exact(live, contenders, Sum(dead), loop, thr, last)
    ensures forall x :: x in live ==> x <= last
  {
    var thr0 := ExactStart(live, dead, contenders);
    LevelsAreTheStakes(live);
    thr, last := ExactLayers(live, contenders, Sum(dead), Levels(live), 0, DeadPot(dead, contenders), thr0);
  }

  /** Every pot has a positive amount and somebody to win it, and the eligible seats strictly shrink. */
  lemma SidePotsShrink(live: seq<int>, dead: seq<int>, contenders: seq<nat>, top: int, pots: seq<Pot>)
    requires Seats(contenders, |live|) && Nonneg(live) && Nonneg(dead) && |contenders| > 0
    requires IsTop(live, contenders, top) && pots == PotLayers(live, dead, contenders)
    ensures Chain(pots, contenders)
  {
    var loop := Layers(live, contenders, Levels(live), 0, DeadPot(dead, contenders));
    var thr, last := LoopExact(live, dead, contenders, loop);
    ShapedChain(live, contenders, loop, thr, last);
    TopInEvery(live, contenders, loop, thr, last, top);
    RemainderSize(live, dead, contenders, loop, last, top);
    RemainderChain(loop, Sum(live) + Sum(dead) - Total(loop), contenders, pots);
  }

  lemma SidePotsTop(live: seq<int>, dead: seq<int>, contenders: seq<nat>, top: int, pots: seq<Pot>)
    requires Seats(contenders, |live|) && Nonneg(live) && Nonneg(dead) && |contenders| > 0
    requires IsTop(live, contenders, top) && pots == PotLayers(live, dead, contenders)
    ensures TopEverywhere(live, contenders, top, pots)
  {
    var loop := Layers(live, contenders, Levels(live), 0, DeadPot(dead, contenders));
    var thr, last := LoopExact(live, dead, contenders, loop);
    TopInEvery(live, contenders, loop, thr, last, top);
    RemainderSize(live, dead, contenders, loop, last, top);
    RemainderTop(live, contenders, top, loop, Sum(live) + Sum(dead) - Total(loop), pots);
  }

  lemma SidePotsListed(live: seq<int>, dead: seq<int>, contenders: seq<nat>, top: int, pots: seq<Pot>)
    requires Seats(contenders, |live|) && Nonneg(live) && Nonneg(dead) && |contenders| > 0
    requires IsTop(live, contenders, top) && pots == PotLayers(live, dead, contenders)
    ensures ListedExactly(live, Sum(dead), contenders, top, pots)
  {
    var loop := Layers(live, contenders, Levels(live), 0, DeadPot(dead, contenders));
    var thr, last := LoopExact(live, dead, contenders, loop);
    RemainderListed(live, Sum(dead), contenders, loop, last, top, Sum(live) + Sum(dead) - Total(loop), pots);
  }

  lemma {:induction false} TopExists(live: seq<int>, contenders: seq<nat>) returns (top: int)
    requires Seats(contenders, |live|) && |contenders| > 0
    ensures IsTop(live, contenders, top)
  {
    var c := contenders[0];
    if |contenders| == 1 {
      top := live[c];
      assert c in contenders;
    } else {
      var t := TopExists(live, contenders[1..]);
      var d :| d in contenders[1..] && live[d] == t;
      top := if live[c] > t then live[c] else t;
      assert c in contenders && d in contenders;
      assert forall e :: e in contenders ==> e == c || e in contenders[1..];
    }
  }

  /** A seat that staked as much as an eligible one is eligible too. */
  ghost predicate UpwardClosed(live: seq<int>, contenders: seq<nat>, pots: seq<Pot>)
    requires Seats(contenders, |live|)
  {
    forall k :: 0 <= k < |pots| ==> ClosedUp(live, contenders, pots[k].eligible)
  }

  ghost predicate ClosedUp(live: seq<int>, contenders: seq<nat>, eligible: seq<nat>)
    requires Seats(contenders, |live|)
  {
    forall c, d :: c in eligible && c < |live| && d in contenders && live[d] >= live[c] ==> d in eligible
  }

  lemma SidePotsUpward(live: seq<int>, dead: seq<int>, contenders: seq<nat>, pots: seq<Pot>)
    requires Seats(contenders, |live|) && Nonneg(live) && Nonneg(dead) && |contenders| > 0
    requires pots == PotLayers(live, dead, contenders)
    ensures UpwardClosed(live, contenders, pots)
  {
    var loop := Layers(live, contenders, Levels(live), 0, DeadPot(dead, contenders));
    var thr, last := LoopExact(live, dead, contenders, loop);
    forall k | 0 <= k < |pots| ensures ClosedUp(live, contenders, pots[k].eligible) {
      if |loop| > 0 {
        EligibleHas(contenders, live, thr[k]);
        assert pots[k].eligible == loop[k].eligible;
      }
    }
  }
}
