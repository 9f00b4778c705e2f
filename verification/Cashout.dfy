/** The EV cash-out (`cashout_split` in holdem/engine.py). */
module Cashout {
  import opened Sums
  import opened Pots
  import opened Settlement
  import opened Awards

  /** Python's `int(x)`: truncation toward zero. */
  function Trunc(x: real): (r: int) {
    if x >= 0.0 then x.Floor else -((-x).Floor)
  }

  /** Pots with one eligible seat are paid out; the hero's other pots are contested. */
  datatype Sorting = Sorting(payouts: seq<int>, contested: seq<Pot>)

  ghost predicate Shareable(pots: seq<Pot>, n: nat) {
    forall k :: 0 <= k < |pots| ==> Winners(pots[k].eligible, n)
  }

  function SortPots(pots: seq<Pot>, hero: nat, n: nat): (r: Option<Sorting>)
    requires Shareable(pots, n)
    ensures r.Some? ==> |r.value.payouts| == n
  {
    if |pots| == 0 then Some(Sorting(Zeros(n), []))
    else
      var pot, before := pots[|pots| - 1], SortPots(pots[..|pots| - 1], hero, n);
      if before.None? then None
      else if |pot.eligible| == 1 then
        assert Winners(pot.eligible, n);
        var i := pot.eligible[0];
        Some(before.value.(payouts := before.value.payouts[i := before.value.payouts[i] + pot.amount]))
      else if hero in pot.eligible then Some(before.value.(contested := before.value.contested + [pot]))
      else None
  }

  /** The hero's part of each contested pot, in proportion to its size, rounded down. */
  function Proportions(contested: seq<Pot>, net: int, whole: int): (r: seq<int>)
    ensures |r| == |contested|
  {
    seq(|contested|, k requires 0 <= k < |contested| => if whole != 0 then net * contested[k].amount / whole else 0)
  }

  /** The first of the largest pots. */
  function Biggest(contested: seq<Pot>): (b: nat)
    requires |contested| > 0
    ensures b < |contested|
  {
    if |contested| == 1 then 0
    else
      var b := Biggest(contested[..|contested| - 1]);
      if contested[|contested| - 1].amount > contested[b].amount then |contested| - 1 else b
  }

  /** The parts, with the rounding chips added to the biggest pot's. */
  function Parts(contested: seq<Pot>, net: int, whole: int): (r: seq<int>)
    ensures |r| == |contested|
  {
    var parts := Proportions(contested, net, whole);
    if |contested| == 0 then parts
    else var b := Biggest(contested); parts[b := parts[b] + (net - Sum(parts))]
  }

  /** `[i for i in eligible if i != hero]`. */
  function Rivals(eligible: seq<nat>, hero: nat): (r: seq<nat>)
    ensures forall i :: i in r <==> i in eligible && i != hero
  {
    if |eligible| == 0 then []
    else
      var k := |eligible| - 1;
      assert eligible == eligible[..k] + [eligible[k]];
      Rivals(eligible[..k], hero) + (if eligible[k] == hero then [] else [eligible[k]])
  }

  lemma {:induction false} RivalsCount(eligible: seq<nat>, hero: nat)
    requires Different(eligible)
    ensures |Rivals(eligible, hero)| == |eligible| - (if hero in eligible then 1 else 0)
  {
    if |eligible| > 0 {
      var k := |eligible| - 1;
      RivalsCount(eligible[..k], hero);
      assert eligible == eligible[..k] + [eligible[k]];
    }
  }

  lemma RivalsFit(eligible: seq<nat>, hero: nat, n: nat)
    requires Seats(eligible, n)
    ensures Seats(Rivals(eligible, hero), n)
  {
    var r := Rivals(eligible, hero);
    forall k | 0 <= k < |r| ensures r[k] < n {
      assert r[k] in r;
    }
  }

  /** The rest of a pot, shared by the rivals: the first `odd` get one chip more. */
  function PayRivals(payouts: seq<int>, rivals: seq<nat>, each: int, odd: int): (r: seq<int>)
    requires Seats(rivals, |payouts|)
    ensures |r| == |payouts|
  {
    if |rivals| == 0 then payouts
    else
      var k := |rivals| - 1;
      var before := PayRivals(payouts, rivals[..k], each, odd);
      before[rivals[k] := before[rivals[k]] + each + (if k < odd then 1 else 0)]
  }

  ghost predicate Contested(pot: Pot, hero: nat, n: nat) {
    Seats(pot.eligible, n) && Different(pot.eligible) && |pot.eligible| >= 2 && hero in pot.eligible
  }

  ghost predicate AllContested(contested: seq<Pot>, hero: nat, n: nat) {
    forall k :: 0 <= k < |contested| ==> Contested(contested[k], hero, n)
  }

  lemma {:induction false} PayRivalsSum(payouts: seq<int>, rivals: seq<nat>, each: int, odd: int)
    requires Seats(rivals, |payouts|) && odd >= 0
    ensures Sum(PayRivals(payouts, rivals, each, odd)) == Sum(payouts) + |rivals| * each + Min(odd, |rivals|)
  {
    if |rivals| > 0 {
      var k := |rivals| - 1;
      PayRivalsSum(payouts, rivals[..k], each, odd);
      var before := PayRivals(payouts, rivals[..k], each, odd);
      SumUpdate(before, rivals[k], before[rivals[k]] + each + (if k < odd then 1 else 0));
      OneMore(k, each);
    }
  }

  lemma OneMore(k: int, each: int)
    ensures (k + 1) * each == k * each + each
  {
  }

  lemma {:induction false} PayRivalsOthers(payouts: seq<int>, rivals: seq<nat>, each: int, odd: int)
    requires Seats(rivals, |payouts|)
    ensures forall i :: 0 <= i < |payouts| && i !in rivals ==> PayRivals(payouts, rivals, each, odd)[i] == payouts[i]
  {
    if |rivals| > 0 {
      PayRivalsOthers(payouts, rivals[..|rivals| - 1], each, odd);
      assert rivals == rivals[..|rivals| - 1] + [rivals[|rivals| - 1]];
    }
  }

  /** Each rival gets the equal share, and one chip more exactly if it is among the first `odd`. */
  lemma {:induction false} PayRivalsEvenly(payouts: seq<int>, rivals: seq<nat>, each: int, odd: int, k: nat)
    requires Seats(rivals, |payouts|) && Different(rivals) && k < |rivals|
    ensures PayRivals(payouts, rivals, each, odd)[rivals[k]] == payouts[rivals[k]] + each + (if k < odd then 1 else 0)
  {
    var last := |rivals| - 1;
    if k < last {
      PayRivalsEvenly(payouts, rivals[..last], each, odd, k);
    } else {
      PayRivalsOthers(payouts, rivals[..last], each, odd);
    }
  }

  /** `each, odd = divmod(rest, len(rivals))`, and each rival its share. */
  function PayRest(payouts: seq<int>, rivals: seq<nat>, rest: int): (r: seq<int>)
    requires Seats(rivals, |payouts|) && |rivals| > 0
    ensures |r| == |payouts|
    ensures Sum(r) == Sum(payouts) + rest
    ensures forall i :: 0 <= i < |r| && i !in rivals ==> r[i] == payouts[i]
  {
    var each, odd := rest / |rivals|, rest % |rivals|;
    DivMod(rest, |rivals|);
    PayRivalsSum(payouts, rivals, each, odd);
    PayRivalsOthers(payouts, rivals, each, odd);
    PayRivals(payouts, rivals, each, odd)
  }

  function PayHeroAndRest(payouts: seq<int>, hero: nat, part: int, rivals: seq<nat>, rest: int): (r: seq<int>)
    requires hero < |payouts| && Seats(rivals, |payouts|) && |rivals| > 0 && hero !in rivals
    ensures |r| == |payouts|
    ensures Sum(r) == Sum(payouts) + part + rest && r[hero] == payouts[hero] + part
    ensures forall i :: 0 <= i < |r| && i != hero && i !in rivals ==> r[i] == payouts[i]
  {
    SumUpdate(payouts, hero, payouts[hero] + part);
    PayRest(payouts[hero := payouts[hero] + part], rivals, rest)
  }

  /** One contested pot is paid out whole: the hero's part, and the rest to the other eligible seats. */
  function PayOne(payouts: seq<int>, pot: Pot, part: int, hero: nat): (r: seq<int>)
    requires hero < |payouts| && Contested(pot, hero, |payouts|)
    ensures |r| == |payouts|
    ensures Sum(r) == Sum(payouts) + pot.amount && r[hero] == payouts[hero] + part
    ensures forall i :: 0 <= i < |r| && i !in pot.eligible ==> r[i] == payouts[i]
  {
    RivalsCount(pot.eligible, hero);
    RivalsFit(pot.eligible, hero, |payouts|);
    PayHeroAndRest(payouts, hero, part, Rivals(pot.eligible, hero), pot.amount - part)
  }

  function PayContested(payouts: seq<int>, contested: seq<Pot>, parts: seq<int>, hero: nat): (r: seq<int>)
    requires |parts| == |contested| && hero < |payouts|
    requires AllContested(contested, hero, |payouts|)
    ensures |r| == |payouts|
  {
    if |contested| == 0 then payouts
    else
      var k := |contested| - 1;
      PayOne(PayContested(payouts, contested[..k], parts[..k], hero), contested[k], parts[k], hero)
  }

  // ----------------------------------------------------- the split

  datatype Offer = Offer(payouts: seq<int>, refund: Option<Refund>, gross: int, net: int)

  ghost predicate Askable(live: seq<int>, dead: seq<int>, contenders: seq<nat>, hero: nat) {
    && |live| == |dead| && Nonneg(live) && Nonneg(dead)
    && Winners(contenders, |live|) && hero < |live|
  }

  /** The pots the cash-out works on: as in `settle`, the uncalled bet is out. */
  function CashoutPots(live: seq<int>, dead: seq<int>, contenders: seq<nat>): (pots: seq<Pot>)
    requires Nonneg(live) && Nonneg(dead) && Winners(contenders, |live|)
    ensures Shareable(pots, |live|)
    ensures Total(pots) == Sum(live) + Sum(dead) - (if Uncalled(live).Some? then Uncalled(live).value.chips else 0)
  {
    RefundFits(live);
    var live' := TakeBack(live, Uncalled(live), -1);
    var pots := PotLayers(live', dead, contenders);
    PotsShareable(live', dead, contenders, pots);
    PotsHoldAllChips(live', dead, contenders);
    TakeBackSum(live, Uncalled(live), -1);
    pots
  }

  lemma {:induction false} SortedAreContested(pots: seq<Pot>, hero: nat, n: nat)
    requires Shareable(pots, n)
    ensures var r := SortPots(pots, hero, n);
            r.Some? ==> AllContested(r.value.contested, hero, n)
  {
    if |pots| > 0 { SortedAreContested(pots[..|pots| - 1], hero, n); }
  }

  function Gross(heroEq: real, whole: int): (r: int) {
    Trunc(heroEq * whole as real)
  }

  function Net(gross: int, fee: real): (r: int) {
    Trunc(gross as real * (1.0 - fee))
  }

  /** The payouts once the hero's `net` is known. */
  function Divide(sorting: Sorting, hero: nat, net: int): (payouts: seq<int>)
    requires hero < |sorting.payouts| && AllContested(sorting.contested, hero, |sorting.payouts|)
    ensures |payouts| == |sorting.payouts|
  {
    PayContested(sorting.payouts, sorting.contested, Parts(sorting.contested, net, Total(sorting.contested)), hero)
  }

  /** `cashout_split`, or None when a pot the hero is not in needs a run-out. */
  function Cashout(live: seq<int>, dead: seq<int>, hero: nat, contenders: seq<nat>, heroEq: real, fee: real): (r: Option<Offer>)
    requires Askable(live, dead, contenders, hero)
  {
    var pots := CashoutPots(live, dead, contenders);
    var sorting := SortPots(pots, hero, |live|);
    if sorting.None? then None
    else
      var gross := Gross(heroEq, Total(sorting.value.contested));
      var net := Net(gross, fee);
      SortedAreContested(pots, hero, |live|);
      Some(Offer(Divide(sorting.value, hero, net), Uncalled(live), gross, net))
  }

  // ---------------------------------------------------- conservation

  lemma {:induction false} SortPotsSum(pots: seq<Pot>, hero: nat, n: nat)
    requires Shareable(pots, n)
    ensures var r := SortPots(pots, hero, n);
            r.Some? ==> Sum(r.value.payouts) + Total(r.value.contested) == Total(pots)
  {
    hide Sum, Zeros;
    if |pots| == 0 {
      SumZero(Zeros(n));
    } else {
      var k := |pots| - 1;
      SortPotsSum(pots[..k], hero, n);
      var before := SortPots(pots[..k], hero, n);
      if before.Some? {
        if |pots[k].eligible| == 1 {
          var i := pots[k].eligible[0];
          SumUpdate(before.value.payouts, i, before.value.payouts[i] + pots[k].amount);
        } else {
          TotalAppend(before.value.contested, pots[k]);
        }
      }
    }
  }

  /** Each contested pot is paid out whole, and a seat in none of them is paid nothing from them. */
  lemma {:induction false} PayContestedFacts(payouts: seq<int>, contested: seq<Pot>, parts: seq<int>, hero: nat, i: nat)
    requires |parts| == |contested| && hero < |payouts| && AllContested(contested, hero, |payouts|) && i < |payouts|
    ensures Sum(PayContested(payouts, contested, parts, hero)) == Sum(payouts) + Total(contested)
    ensures i == hero ==> PayContested(payouts, contested, parts, hero)[i] == payouts[i] + Sum(parts)
    ensures (forall k :: 0 <= k < |contested| ==> i !in contested[k].eligible) ==>
              PayContested(payouts, contested, parts, hero)[i] == payouts[i]
  {
    if |contested| > 0 {
      var k := |contested| - 1;
      PayContestedFacts(payouts, contested[..k], parts[..k], hero, i);
    }
  }

  lemma PartsSum(contested: seq<Pot>, net: int, whole: int)
    requires |contested| > 0
    ensures Sum(Parts(contested, net, whole)) == net
  {
    var parts, b := Proportions(contested, net, whole), Biggest(contested);
    SumUpdate(parts, b, parts[b] + (net - Sum(parts)));
  }

  lemma DivideFacts(sorting: Sorting, hero: nat, net: int, i: nat)
    requires hero < |sorting.payouts| && AllContested(sorting.contested, hero, |sorting.payouts|) && i < |sorting.payouts|
    ensures Sum(Divide(sorting, hero, net)) == Sum(sorting.payouts) + Total(sorting.contested)
    ensures i == hero ==> Divide(sorting, hero, net)[i] == sorting.payouts[i] + (if |sorting.contested| > 0 then net else 0)
    ensures (forall k :: 0 <= k < |sorting.contested| ==> i !in sorting.contested[k].eligible) ==>
              Divide(sorting, hero, net)[i] == sorting.payouts[i]
  {
    var parts := Parts(sorting.contested, net, Total(sorting.contested));
    PayContestedFacts(sorting.payouts, sorting.contested, parts, hero, i);
    if |sorting.contested| > 0 { PartsSum(sorting.contested, net, Total(sorting.contested)); }
  }

  lemma NothingContested(heroEq: real, fee: real, whole: int)
    requires whole == 0
    ensures Net(Gross(heroEq, whole), fee) == 0
  {
    assert whole as real == 0.0;
    assert heroEq * whole as real == 0.0;
  }

  /** The payouts and the refund are the whole pot. */
  lemma CashoutConserves(live: seq<int>, dead: seq<int>, hero: nat, contenders: seq<nat>, heroEq: real, fee: real)
    requires Askable(live, dead, contenders, hero)
    ensures var r := Cashout(live, dead, hero, contenders, heroEq, fee);
            r.Some? ==> Sum(r.value.payouts) + (if r.value.refund.Some? then r.value.refund.value.chips else 0)
                        == Sum(live) + Sum(dead)
  {
    var pots := CashoutPots(live, dead, contenders);
    var sorting := SortPots(pots, hero, |live|);
    if sorting.Some? {
      SortPotsSum(pots, hero, |live|);
      SortedAreContested(pots, hero, |live|);
      DivideFacts(sorting.value, hero, Cashout(live, dead, hero, contenders, heroEq, fee).value.net, hero);
    }
  }

  // -------------------------------------------- the hero and the others

  /** Chips of the pots only seat `i` can win. */
  function SoleChips(pots: seq<Pot>, i: nat): (t: int) {
    if |pots| == 0 then 0
    else
      var pot := pots[|pots| - 1];
      SoleChips(pots[..|pots| - 1], i) + (if pot.eligible == [i] then pot.amount else 0)
  }

  lemma {:induction false} SortPotsSole(pots: seq<Pot>, hero: nat, n: nat, i: nat)
    requires i < n && Shareable(pots, n)
    ensures var r := SortPots(pots, hero, n); r.Some? ==> r.value.payouts[i] == SoleChips(pots, i)
  {
    if |pots| > 0 {
      var k := |pots| - 1;
      SortPotsSole(pots[..k], hero, n, i);
      if |pots[k].eligible| == 1 {
        assert pots[k].eligible == [i] <==> pots[k].eligible[0] == i;
      }
    }
  }

  /** The hero gets its sole pots and `net`. */
  lemma CashoutHero(live: seq<int>, dead: seq<int>, hero: nat, contenders: seq<nat>, heroEq: real, fee: real)
    requires Askable(live, dead, contenders, hero)
    ensures var r := Cashout(live, dead, hero, contenders, heroEq, fee);
            r.Some? ==> r.value.payouts[hero] == SoleChips(CashoutPots(live, dead, contenders), hero) + r.value.net
  {
    var pots := CashoutPots(live, dead, contenders);
    var sorting := SortPots(pots, hero, |live|);
    if sorting.Some? {
      SortPotsSole(pots, hero, |live|, hero);
      SortedAreContested(pots, hero, |live|);
      var offer := Cashout(live, dead, hero, contenders, heroEq, fee).value;
      DivideFacts(sorting.value, hero, offer.net, hero);
      if |sorting.value.contested| == 0 { NothingContested(heroEq, fee, Total(sorting.value.contested)); }
    }
  }

  /** Chips of the pots the hero contests with somebody. */
  function PlayedFor(pots: seq<Pot>, hero: nat): (t: int) {
    if |pots| == 0 then 0
    else
      var pot := pots[|pots| - 1];
      PlayedFor(pots[..|pots| - 1], hero) + (if hero in pot.eligible && |pot.eligible| > 1 then pot.amount else 0)
  }

  lemma {:induction false} SortPotsPlayed(pots: seq<Pot>, hero: nat, n: nat)
    requires Shareable(pots, n)
    ensures var r := SortPots(pots, hero, n); r.Some? ==> Total(r.value.contested) == PlayedFor(pots, hero)
  {
    if |pots| > 0 {
      var k := |pots| - 1;
      SortPotsPlayed(pots[..k], hero, n);
      var before := SortPots(pots[..k], hero, n);
      assert Winners(pots[k].eligible, n);
      if before.Some? { TotalAppend(before.value.contested, pots[k]); }
    }
  }

  /** `r` is `x` without its fraction. */
  predicate WholePart(x: real, r: int) {
    if x >= 0.0 then r as real <= x < r as real + 1.0 else r as real - 1.0 < x <= r as real
  }

  /** The equity `heroEq` in `played` chips, in whole chips, less the fee, in whole chips. */
  predicate Priced(heroEq: real, fee: real, played: int, gross: int, net: int) {
    WholePart(heroEq * played as real, gross) && WholePart(gross as real * (1.0 - fee), net)
  }

  /** The hero is paid its equity in the pots it contests with somebody, less the fee. */
  lemma CashoutPrice(live: seq<int>, dead: seq<int>, hero: nat, contenders: seq<nat>, heroEq: real, fee: real)
    requires Askable(live, dead, contenders, hero)
    ensures var r, pots := Cashout(live, dead, hero, contenders, heroEq, fee), CashoutPots(live, dead, contenders);
            r.Some? ==> Priced(heroEq, fee, PlayedFor(pots, hero), r.value.gross, r.value.net)
  {
    hide CashoutPots, SortPots, Divide, PlayedFor, Priced, Gross, Net;
    var pots := CashoutPots(live, dead, contenders);
    SortPotsPlayed(pots, hero, |live|);
    PriceIs(heroEq, fee, PlayedFor(pots, hero));
  }

  lemma PriceIs(heroEq: real, fee: real, whole: int)
    ensures Priced(heroEq, fee, whole, Gross(heroEq, whole), Net(Gross(heroEq, whole), fee))
  {
    Truncates(heroEq * whole as real);
    Truncates(Gross(heroEq, whole) as real * (1.0 - fee));
  }

  lemma Truncates(x: real)
    ensures WholePart(x, Trunc(x))
  {
  }

  // --------------------------------------------- when it is refused

  /** A pot the hero is not in that more than one seat can win. */
  ghost predicate Foreign(pot: Pot, hero: nat) {
    hero !in pot.eligible && |pot.eligible| != 1
  }

  lemma {:induction false} SortPotsRefuses(pots: seq<Pot>, hero: nat, n: nat)
    requires Shareable(pots, n)
    ensures SortPots(pots, hero, n).None? <==> exists k :: 0 <= k < |pots| && Foreign(pots[k], hero)
  {
    if |pots| > 0 {
      var k := |pots| - 1;
      SortPotsRefuses(pots[..k], hero, n);
      if exists j :: 0 <= j < k && Foreign(pots[..k][j], hero) {
        var j :| 0 <= j < k && Foreign(pots[..k][j], hero);
        assert Foreign(pots[j], hero);
      }
      assert forall j :: 0 <= j < k ==> pots[..k][j] == pots[j];
    }
  }

  /** A contender that staked more than another is listed for more. */
  lemma StakedMoreListedMore(live: seq<int>, dead: seq<int>, contenders: seq<nat>, pots: seq<Pot>, hero: nat, c: nat)
    requires Nonneg(live) && Nonneg(dead) && Winners(contenders, |live|)
    requires pots == PotLayers(live, dead, contenders)
    requires hero in contenders && c in contenders && live[c] > live[hero]
    ensures Listed(pots, c) > Listed(pots, hero)
  {
    var top := TopExists(live, contenders);
    SidePotsListed(live, dead, contenders, top, pots);
    assert live[c] in live;
    MatchedGrows(live, live[hero], live[c]);
    if live[c] == top {
      SidePotsTop(live, dead, contenders, top, pots);
      ListedTotal(pots, c);
      PotsHoldAllChips(live, dead, contenders);
      MatchedAll(live, live[c]);
    }
  }

  predicate Above(live: seq<int>, contenders: seq<nat>, hero: nat, a: nat)
    requires hero < |live|
  {
    a in contenders && a < |live| && live[a] > live[hero]
  }

  ghost predicate TwoAbove(live: seq<int>, contenders: seq<nat>, hero: nat) {
    hero < |live| && exists a, b :: a != b && Above(live, contenders, hero, a) && Above(live, contenders, hero, b)
  }

  lemma ForeignFrom(live: seq<int>, dead: seq<int>, contenders: seq<nat>, pots: seq<Pot>, hero: nat, c: nat, d: nat)
    returns (k: nat)
    requires Nonneg(live) && Nonneg(dead) && Winners(contenders, |live|) && hero in contenders
    requires pots == PotLayers(live, dead, contenders)
    requires c in contenders && d in contenders && c != d && live[hero] < live[c] <= live[d]
    ensures k < |pots| && Foreign(pots[k], hero)
  {
    hide PotLayers, Listed;
    StakedMoreListedMore(live, dead, contenders, pots, hero, c);
    SidePotsUpward(live, dead, contenders, pots);
    PotsPositive(live, dead, contenders, pots);
    k := ListedElsewhere(pots, c, hero);
    var e := pots[k].eligible;
    assert ClosedUp(live, contenders, e);
    assert d in e;
  }

  lemma PotsPositive(live: seq<int>, dead: seq<int>, contenders: seq<nat>, pots: seq<Pot>)
    requires Nonneg(live) && Nonneg(dead) && Winners(contenders, |live|) && pots == PotLayers(live, dead, contenders)
    ensures forall k :: 0 <= k < |pots| ==> pots[k].amount >= 0
  {
    var top := TopExists(live, contenders);
    SidePotsShrink(live, dead, contenders, top, pots);
  }

  /** A seat listed for more than another is in a pot without it. */
  lemma {:induction false} ListedElsewhere(pots: seq<Pot>, c: nat, d: nat) returns (k: nat)
    requires Listed(pots, c) > Listed(pots, d) && forall k :: 0 <= k < |pots| ==> pots[k].amount >= 0
    ensures k < |pots| && c in pots[k].eligible && d !in pots[k].eligible
  {
    var n := |pots| - 1;
    if c in pots[n].eligible && d !in pots[n].eligible {
      k := n;
    } else {
      k := ListedElsewhere(pots[..n], c, d);
    }
  }

  lemma ForeignIfTwoAbove(live: seq<int>, dead: seq<int>, contenders: seq<nat>, pots: seq<Pot>, hero: nat)
    requires Nonneg(live) && Nonneg(dead) && Winners(contenders, |live|) && hero in contenders
    requires pots == PotLayers(live, dead, contenders) && TwoAbove(live, contenders, hero)
    ensures exists k :: 0 <= k < |pots| && Foreign(pots[k], hero)
  {
    var x: nat, y: nat :| x != y && Above(live, contenders, hero, x) && Above(live, contenders, hero, y);
    var k: nat;
    if live[x] <= live[y] {
      k := ForeignFrom(live, dead, contenders, pots, hero, x, y);
    } else {
      k := ForeignFrom(live, dead, contenders, pots, hero, y, x);
    }
  }

  lemma TwoAboveIfForeign(live: seq<int>, dead: seq<int>, contenders: seq<nat>, pots: seq<Pot>, hero: nat, k: nat)
    requires Nonneg(live) && Nonneg(dead) && Winners(contenders, |live|) && hero in contenders
    requires pots == PotLayers(live, dead, contenders) && k < |pots| && Foreign(pots[k], hero)
    ensures TwoAbove(live, contenders, hero)
  {
    SidePotsUpward(live, dead, contenders, pots);
    PotsShareable(live, dead, contenders, pots);
    var e := pots[k].eligible;
    var a, b := e[0], e[1];
    assert a in e && b in e && a != b;
    assert ClosedUp(live, contenders, e);
    assert Above(live, contenders, hero, a) && Above(live, contenders, hero, b);
  }

  lemma RefundKeepsOrder(live: seq<int>, contenders: seq<nat>, hero: nat)
    requires Nonneg(live) && Seats(contenders, |live|) && hero < |live|
    requires Uncalled(live).Some? ==> Uncalled(live).value.seat < |live|
    ensures TwoAbove(live, contenders, hero) <==> TwoAbove(TakeBack(live, Uncalled(live), -1), contenders, hero)
  {
    if Uncalled(live).Some? {
      UncalledSound(live);
      var live', r := TakeBack(live, Uncalled(live), -1), Uncalled(live).value.seat;
      assert forall j :: 0 <= j < |live| && j != r ==> live'[j] == live[j] && live[j] <= live'[r];
      if TwoAbove(live, contenders, hero) {
        var a: nat, b: nat :| a != b && Above(live, contenders, hero, a) && Above(live, contenders, hero, b);
        assert Above(live', contenders, hero, a) && Above(live', contenders, hero, b);
      }
      if TwoAbove(live', contenders, hero) {
        var a: nat, b: nat :| a != b && Above(live', contenders, hero, a) && Above(live', contenders, hero, b);
        assert Above(live, contenders, hero, a) && Above(live, contenders, hero, b);
      }
    }
  }

  /** No offer is made exactly when a pot has two or more eligible seats and the hero is not among them. */
  lemma CashoutNeedsPot(live: seq<int>, dead: seq<int>, hero: nat, contenders: seq<nat>, heroEq: real, fee: real)
    requires Askable(live, dead, contenders, hero)
    ensures var pots := CashoutPots(live, dead, contenders);
            Cashout(live, dead, hero, contenders, heroEq, fee).None? <==> exists k :: 0 <= k < |pots| && Foreign(pots[k], hero)
  {
    SortPotsRefuses(CashoutPots(live, dead, contenders), hero, |live|);
  }

  /** A hero in the hand can tell from the stakes: no offer is made exactly when two contenders staked more. */
  lemma CashoutRefusal(live: seq<int>, dead: seq<int>, hero: nat, contenders: seq<nat>, heroEq: real, fee: real)
    requires Askable(live, dead, contenders, hero) && hero in contenders
    ensures Cashout(live, dead, hero, contenders, heroEq, fee).None? <==> TwoAbove(live, contenders, hero)
  {
    var pots := CashoutPots(live, dead, contenders);
    SortPotsRefuses(pots, hero, |live|);
    RefundFits(live);
    RefundKeepsOrder(live, contenders, hero);
    var live' := TakeBack(live, Uncalled(live), -1);
    if TwoAbove(live', contenders, hero) {
      ForeignIfTwoAbove(live', dead, contenders, pots, hero);
    }
    if exists k :: 0 <= k < |pots| && Foreign(pots[k], hero) {
      var k :| 0 <= k < |pots| && Foreign(pots[k], hero);
      TwoAboveIfForeign(live', dead, contenders, pots, hero, k);
    }
  }

  // ------------------------------------------------ as the code loops

  method SortOut(pots: seq<Pot>, hero: nat, n: nat) returns (r: Option<Sorting>)
    requires Shareable(pots, n) && hero < n
    ensures r == SortPots(pots, hero, n)
  {
    var payouts, contested: seq<Pot> := Zeros(n), [];
    for k := 0 to |pots|
      invariant SortPots(pots[..k], hero, n) == Some(Sorting(payouts, contested))
    {
      assert pots[..k + 1][..k] == pots[..k];
      assert Winners(pots[k].eligible, n);
      var eligible := pots[k].eligible;
      if hero in eligible {
        if |eligible| == 1 {
          payouts := payouts[hero := payouts[hero] + pots[k].amount];
        } else {
          contested := contested + [pots[k]];
        }
      } else if |eligible| == 1 {
        payouts := payouts[eligible[0] := payouts[eligible[0]] + pots[k].amount];
      } else {
        assert Foreign(pots[k], hero);
        SortPotsRefuses(pots, hero, n);
        return None;
      }
    }
    assert pots[..|pots|] == pots;
    r := Some(Sorting(payouts, contested));
  }

  method PayOut(start: seq<int>, contested: seq<Pot>, parts: seq<int>, hero: nat) returns (payouts: seq<int>)
    requires |parts| == |contested| && hero < |start| && AllContested(contested, hero, |start|)
    ensures payouts == PayContested(start, contested, parts, hero)
  {
    hide PayOne;
    payouts := start;
    for k := 0 to |contested|
      invariant payouts == PayContested(start, contested[..k], parts[..k], hero)
    {
      assert contested[..k + 1][..k] == contested[..k] && parts[..k + 1][..k] == parts[..k];
      payouts := PayOneLoop(payouts, contested[k], parts[k], hero);
    }
    assert contested[..|contested|] == contested && parts[..|parts|] == parts;
  }

  method PayOneLoop(start: seq<int>, pot: Pot, part: int, hero: nat) returns (payouts: seq<int>)
    requires hero < |start| && Contested(pot, hero, |start|)
    ensures payouts == PayOne(start, pot, part, hero)
  {
    hide PayHeroAndRest, Rivals;
    RivalsCount(pot.eligible, hero);
    RivalsFit(pot.eligible, hero, |start|);
    payouts := PayHeroLoop(start, hero, part, Rivals(pot.eligible, hero), pot.amount - part);
  }

  method PayHeroLoop(start: seq<int>, hero: nat, part: int, rivals: seq<nat>, rest: int) returns (payouts: seq<int>)
    requires hero < |start| && Seats(rivals, |start|) && |rivals| > 0 && hero !in rivals
    ensures payouts == PayHeroAndRest(start, hero, part, rivals, rest)
  {
    payouts := start[hero := start[hero] + part];
    payouts := PayRestLoop(payouts, rivals, rest);
  }

  method PayRestLoop(start: seq<int>, rivals: seq<nat>, rest: int) returns (payouts: seq<int>)
    requires Seats(rivals, |start|) && |rivals| > 0
    ensures payouts == PayRest(start, rivals, rest)
  {
    payouts := PayRivalsLoop(start, rivals, rest / |rivals|, rest % |rivals|);
  }

  method PayRivalsLoop(start: seq<int>, rivals: seq<nat>, each: int, odd: int) returns (payouts: seq<int>)
    requires Seats(rivals, |start|)
    ensures payouts == PayRivals(start, rivals, each, odd)
  {
    payouts := start;
    for j := 0 to |rivals|
      invariant payouts == PayRivals(start, rivals[..j], each, odd)
    {
      assert rivals[..j + 1][..j] == rivals[..j];
      payouts := payouts[rivals[j] := payouts[rivals[j]] + each + (if j < odd then 1 else 0)];
    }
    assert rivals[..|rivals|] == rivals;
  }

  /** `cashout_split`, as the code goes through it. */
  method CashoutSplit(live: seq<int>, dead: seq<int>, hero: nat, contenders: seq<nat>, heroEq: real, fee: real)
    returns (r: Option<Offer>)
    requires Askable(live, dead, contenders, hero)
    ensures r == Cashout(live, dead, hero, contenders, heroEq, fee)
  {
    hide Uncalled, PotLayers, SortPots, Parts, PayContested, Total;
    var refund := Uncalled(live);
    RefundFits(live);
    var live' := live;
    if refund.Some? {
      live' := live'[refund.value.seat := live'[refund.value.seat] - refund.value.chips];
    }
    var pots := ComputePots(live', dead, contenders);
    assert pots == CashoutPots(live, dead, contenders);
    var sorting := SortOut(pots, hero, |live|);
    if sorting.None? {
      return None;
    }
    var contested := sorting.value.contested;
    var gross := Gross(heroEq, Total(contested));
    var net := Net(gross, fee);
    SortedAreContested(pots, hero, |live|);
    var payouts := PayOut(sorting.value.payouts, contested, Parts(contested, net, Total(contested)), hero);
    r := Some(Offer(payouts, refund, gross, net));
  }
}
