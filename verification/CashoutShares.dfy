/** What each seat gets from each pot of a cash-out, and when the rounding chips overpay the hero (holdem/engine.py). */
module CashoutShares {
  import opened Sums
  import opened Pots
  import opened Settlement
  import opened Awards
  import opened Offers = Cashout

  // -------------------------------------------------- shares of one pot

  function Place(s: seq<nat>, i: nat): (k: nat)
    requires i in s
    ensures k < |s| && s[k] == i
  {
    if s[0] == i then 0 else 1 + Place(s[1..], i)
  }

  /** What seat `i` gets from a contested pot: the hero its part, each rival an equal share of the rest, the first of them
      one odd chip more. */
  function PotShare(pot: Pot, part: int, hero: nat, i: nat): (t: int)
    requires |pot.eligible| >= 2 && Different(pot.eligible) && hero in pot.eligible
  {
    RivalsCount(pot.eligible, hero);
    var rivals, rest := Rivals(pot.eligible, hero), pot.amount - part;
    if i == hero then part
    else if i !in pot.eligible then 0
    else rest / |rivals| + (if Place(rivals, i) < rest % |rivals| then 1 else 0)
  }

  lemma {:induction false} RivalsDifferent(eligible: seq<nat>, hero: nat)
    requires Different(eligible)
    ensures Different(Rivals(eligible, hero))
  {
    if |eligible| > 0 {
      var k := |eligible| - 1;
      RivalsDifferent(eligible[..k], hero);
      assert eligible[k] !in eligible[..k];
    }
  }

  lemma PaysShare(payouts: seq<int>, pot: Pot, part: int, hero: nat, i: nat)
    requires hero < |payouts| && Contested(pot, hero, |payouts|) && i < |payouts|
    ensures PayOne(payouts, pot, part, hero)[i] == payouts[i] + PotShare(pot, part, hero, i)
  {
    hide PayRivals;
    var rivals, rest := Rivals(pot.eligible, hero), pot.amount - part;
    RivalsCount(pot.eligible, hero);
    RivalsFit(pot.eligible, hero, |payouts|);
    RivalsDifferent(pot.eligible, hero);
    if i != hero && i in pot.eligible {
      var start := payouts[hero := payouts[hero] + part];
      PayRivalsEvenly(start, rivals, rest / |rivals|, rest % |rivals|, Place(rivals, i));
    }
  }

  /** What seat `i` gets from all contested pots. */
  function SharesOf(contested: seq<Pot>, parts: seq<int>, hero: nat, i: nat): (t: int)
    requires |parts| == |contested| && Shared(contested, hero)
  {
    if |contested| == 0 then 0
    else
      var k := |contested| - 1;
      SharesOf(contested[..k], parts[..k], hero, i) + PotShare(contested[k], parts[k], hero, i)
  }

  predicate Shared(contested: seq<Pot>, hero: nat) {
    forall k :: 0 <= k < |contested| ==>
      |contested[k].eligible| >= 2 && Different(contested[k].eligible) && hero in contested[k].eligible
  }

  lemma {:induction false} PaysShares(payouts: seq<int>, contested: seq<Pot>, parts: seq<int>, hero: nat, i: nat)
    requires |parts| == |contested| && hero < |payouts| && AllContested(contested, hero, |payouts|) && i < |payouts|
    ensures Shared(contested, hero)
    ensures PayContested(payouts, contested, parts, hero)[i] == payouts[i] + SharesOf(contested, parts, hero, i)
  {
    hide PayOne, PotShare;
    if |contested| > 0 {
      var k := |contested| - 1;
      PaysShares(payouts, contested[..k], parts[..k], hero, i);
      PaysShare(PayContested(payouts, contested[..k], parts[..k], hero), contested[k], parts[k], hero, i);
    }
  }

  /** The pots the hero contests, and its part of each. */
  function ContestedPots(live: seq<int>, dead: seq<int>, hero: nat, contenders: seq<nat>): (r: seq<Pot>)
    requires Askable(live, dead, contenders, hero)
    requires SortPots(CashoutPots(live, dead, contenders), hero, |live|).Some?
    ensures Shared(r, hero) && AllContested(r, hero, |live|)
  {
    SortedAreContested(CashoutPots(live, dead, contenders), hero, |live|);
    SortPots(CashoutPots(live, dead, contenders), hero, |live|).value.contested
  }

  function PartsOf(contested: seq<Pot>, net: int): (r: seq<int>)
    ensures |r| == |contested|
  {
    Parts(contested, net, Total(contested))
  }

  /** Every seat is paid its sole pots and its share of each contested pot that lists it, to the chip. */
  lemma CashoutPays(live: seq<int>, dead: seq<int>, hero: nat, contenders: seq<nat>, heroEq: real, fee: real, i: nat)
    requires Askable(live, dead, contenders, hero) && i < |live| && Cashout(live, dead, hero, contenders, heroEq, fee).Some?
    ensures var offer, contested := Cashout(live, dead, hero, contenders, heroEq, fee).value,
                                    ContestedPots(live, dead, hero, contenders);
            |offer.payouts| == |live|
            && offer.payouts[i] == SoleChips(CashoutPots(live, dead, contenders), i)
                                   + SharesOf(contested, PartsOf(contested, offer.net), hero, i)
  {
    hide SharesOf, SoleChips, Parts;
    var pots := CashoutPots(live, dead, contenders);
    var sorting := SortPots(pots, hero, |live|).value;
    var net := Cashout(live, dead, hero, contenders, heroEq, fee).value.net;
    SortPotsSole(pots, hero, |live|, i);
    SortedAreContested(pots, hero, |live|);
    PaysShares(sorting.payouts, sorting.contested, PartsOf(sorting.contested, net), hero, i);
  }

  // ------------------------------------------ when a pot charges nobody

  /** Rounded up. */
  function CeilDiv(p: int, w: int): (r: int)
    requires w > 0
  {
    -((-p) / w)
  }

  lemma Cancel(w: int, a: int, b: int)
    requires w > 0
    ensures w * a <= w * b ==> a <= b
    ensures w * a < w * b ==> a < b
  {
    if a > b { assert w * a > w * b; }
    if a == b { assert w * a == w * b; }
  }

  /** The quotient is the one number whose multiple fits. */
  lemma QuotientIs(p: int, w: int, q: int)
    requires w > 0 && w * q <= p < w * q + w
    ensures p / w == q
  {
    DivMod(p, w);
    assert w * (q + 1) == w * q + w && w * (p / w + 1) == w * (p / w) + w;
    Cancel(w, q, p / w + 1);
    Cancel(w, p / w, q + 1);
  }

  lemma CeilBounds(p: int, w: int)
    requires w > 0
    ensures p <= w * CeilDiv(p, w) < p + w
  {
    DivMod(-p, w);
    assert w * CeilDiv(p, w) == -(w * ((-p) / w));
  }

  /** Rounding the hero's part down leaves the others their part rounded up. */
  lemma FloorIsRest(net: int, amount: int, whole: int)
    requires whole > 0
    ensures net * amount / whole == amount - CeilDiv((whole - net) * amount, whole)
  {
    var rest := (whole - net) * amount;
    var c := CeilDiv(rest, whole);
    CeilBounds(rest, whole);
    assert rest == whole * amount - net * amount;
    assert whole * (amount - c) == whole * amount - whole * c;
    QuotientIs(net * amount, whole, amount - c);
  }

  /** The rests of all pots but one, each rounded up, when `left` chips of `whole` are not the hero's. */
  function RestsUp(contested: seq<Pot>, left: int, whole: int, but: int): (t: int)
    requires whole > 0
  {
    if |contested| == 0 then 0
    else
      var k := |contested| - 1;
      RestsUp(contested[..k], left, whole, but) + (if k == but then 0 else CeilDiv(left * contested[k].amount, whole))
  }

  function At(contested: seq<Pot>, k: int): (a: int) {
    if 0 <= k < |contested| then contested[k].amount else 0
  }

  lemma {:induction false} PartsLeave(contested: seq<Pot>, net: int, whole: int, but: int)
    requires whole > 0
    ensures Sum(Proportions(contested, net, whole))
         == Total(contested) - RestsUp(contested, whole - net, whole, but) - CeilDiv((whole - net) * At(contested, but), whole)
  {
    hide CeilDiv;
    if |contested| > 0 {
      var k := |contested| - 1;
      PartsLeave(contested[..k], net, whole, but);
      assert Proportions(contested, net, whole)[..k] == Proportions(contested[..k], net, whole);
      FloorIsRest(net, contested[k].amount, whole);
      NoRest(whole - net, whole);
    } else {
      NoRest(whole - net, whole);
    }
  }

  lemma NoRest(left: int, whole: int)
    requires whole > 0
    ensures CeilDiv(left * 0, whole) == 0
  {
    assert left * 0 == 0;
    QuotientIs(0, whole, 0);
  }

  /** The biggest pot's part is the whole pot, less the chips not the hero's, plus what the other pots took of those. */
  lemma BiggestPart(contested: seq<Pot>, net: int)
    requires |contested| > 0 && Total(contested) > 0
    ensures var whole, b := Total(contested), Biggest(contested);
            PartsOf(contested, net)[b] == contested[b].amount - (whole - net) + RestsUp(contested, whole - net, whole, b)
  {
    hide RestsUp, CeilDiv, Total, Sum;
    var whole, b := Total(contested), Biggest(contested);
    PartsLeave(contested, net, whole, b);
    FloorIsRest(net, contested[b].amount, whole);
  }

  lemma {:induction false} RestsCover(contested: seq<Pot>, left: int, whole: int, but: int)
    requires whole > 0
    ensures whole * RestsUp(contested, left, whole, but) >= left * (Total(contested) - At(contested, but))
  {
    hide CeilDiv;
    if |contested| > 0 {
      var k := |contested| - 1;
      RestsCover(contested[..k], left, whole, but);
      var a, before := contested[k].amount, RestsUp(contested[..k], left, whole, but);
      CeilBounds(left * a, whole);
      var others := Total(contested[..k]) - At(contested[..k], but);
      assert left * (others + a) == left * others + left * a;
      assert whole * (before + CeilDiv(left * a, whole)) == whole * before + whole * CeilDiv(left * a, whole);
    }
  }

  /** No part exceeds its pot or falls below nothing. */
  predicate Fits(contested: seq<Pot>, net: int) {
    forall k :: 0 <= k < |contested| ==> 0 <= PartsOf(contested, net)[k] <= contested[k].amount
  }

  /** The chips that are not the hero's pay the rests of all pots but the biggest, each rounded up. */
  predicate RoomFor(contested: seq<Pot>, net: int) {
    var whole := Total(contested);
    0 <= net <= whole && (|contested| > 0 && whole > 0 ==> RestsUp(contested, whole - net, whole, Biggest(contested)) <= whole - net)
  }

  predicate Positive(contested: seq<Pot>) {
    forall k :: 0 <= k < |contested| ==> contested[k].amount > 0
  }

  lemma {:induction false} TotalBounds(contested: seq<Pot>, k: nat)
    requires Positive(contested) && k < |contested|
    ensures 0 < contested[k].amount <= Total(contested)
    decreases |contested|
  {
    var last := |contested| - 1;
    if last > 0 {
      TotalBounds(contested[..last], if k < last then k else 0);
    }
  }

  lemma Times(a: int, b: int, c: int)
    requires a <= b && c >= 0
    ensures a * c <= b * c
  {
  }

  /** A pot that is not the biggest fits whenever the net does. */
  lemma OtherPartFits(contested: seq<Pot>, net: int, k: nat)
    requires Positive(contested) && k < |contested| && 0 <= net <= Total(contested) && k != Biggest(contested)
    ensures 0 <= PartsOf(contested, net)[k] <= contested[k].amount
  {
    hide Total, Sum;
    var whole, a := Total(contested), contested[k].amount;
    TotalBounds(contested, k);
    Times(0, net, a);
    Times(net, whole, a);
    DivMod(net * a, whole);
    Cancel(whole, net * a / whole, a);
  }

  /** The biggest pot's part is never negative, and fits exactly if there is room. */
  lemma BiggestFits(contested: seq<Pot>, net: int)
    requires Positive(contested) && |contested| > 0 && 0 <= net <= Total(contested)
    ensures var b := Biggest(contested);
            PartsOf(contested, net)[b] >= 0 && (PartsOf(contested, net)[b] <= contested[b].amount <==> RoomFor(contested, net))
  {
    hide RestsUp, Total, Sum, Parts;
    var whole, b := Total(contested), Biggest(contested);
    var left, a := whole - net, contested[b].amount;
    TotalBounds(contested, b);
    BiggestPart(contested, net);
    RestsCover(contested, left, whole, b);
    var up := RestsUp(contested, left, whole, b);
    assert whole * (a - left + up) == whole * a - whole * left + whole * up;
    assert left * (whole - a) == whole * left - left * a;
    assert whole * a - left * a == net * a;
    Times(0, net, a);
    Cancel(whole, 0, a - left + up);
  }

  lemma {:induction false} FitsWithin(contested: seq<Pot>, parts: seq<int>)
    requires |parts| == |contested| && forall k :: 0 <= k < |contested| ==> 0 <= parts[k] <= contested[k].amount
    ensures 0 <= Sum(parts) <= Total(contested)
  {
    if |contested| > 0 { FitsWithin(contested[..|contested| - 1], parts[..|contested| - 1]); }
  }

  /** Main result: every part lies within its pot exactly if the chips left over pay the other rests rounded up. */
  lemma PartsFitExactly(contested: seq<Pot>, net: int)
    requires Positive(contested) && (|contested| == 0 ==> net == 0)
    ensures Fits(contested, net) <==> RoomFor(contested, net)
  {
    hide Total, Sum, RestsUp, Parts;
    if |contested| == 0 {
      NothingTotal(contested);
    } else {
      var b := Biggest(contested);
      if Fits(contested, net) {
        FitsWithin(contested, PartsOf(contested, net));
        PartsSum(contested, net, Total(contested));
      }
      if 0 <= net <= Total(contested) {
        BiggestFits(contested, net);
        forall k | 0 <= k < |contested| && k != b ensures 0 <= PartsOf(contested, net)[k] <= contested[k].amount {
          OtherPartFits(contested, net, k);
        }
      }
    }
  }

  lemma NothingTotal(contested: seq<Pot>)
    requires |contested| == 0
    ensures Total(contested) == 0
  {
  }

  /** With one or two contested pots there is always room. */
  lemma PartsFit(contested: seq<Pot>, net: int)
    requires |contested| <= 2 && Positive(contested) && 0 <= net <= Total(contested)
    ensures RoomFor(contested, net) && Fits(contested, net)
  {
    hide Total, CeilDiv, Parts, Fits;
    var whole := Total(contested);
    if |contested| > 0 {
      var b := Biggest(contested);
      var left, o := whole - net, if |contested| == 2 then 1 - b else b;
      TotalBounds(contested, o);
      Times(contested[o].amount, whole, left);
      CeilBounds(left * contested[o].amount, whole);
      Cancel(whole, CeilDiv(left * contested[o].amount, whole), left + 1);
      assert whole * (left + 1) == whole * left + whole;
      OneRest(contested, left, whole, b);
    } else {
      NothingTotal(contested);
    }
    PartsFitExactly(contested, net);
  }

  lemma OneRest(contested: seq<Pot>, left: int, whole: int, but: nat)
    requires whole > 0 && 1 <= |contested| <= 2 && but < |contested|
    ensures RestsUp(contested, left, whole, but)
         == if |contested| == 2 then CeilDiv(left * contested[1 - but].amount, whole) else 0
  {
    hide CeilDiv;
    if |contested| == 2 {
      var one := contested[..1];
      assert RestsUp(one, left, whole, but) == if but == 0 then 0 else CeilDiv(left * one[0].amount, whole);
    }
  }

  /** A pot pays nobody a negative amount exactly if the hero's part lies within it. */
  lemma ShareSigns(pot: Pot, part: int, hero: nat)
    requires |pot.eligible| >= 2 && Different(pot.eligible) && hero in pot.eligible
    ensures (forall i :: PotShare(pot, part, hero, i) >= 0) <==> 0 <= part <= pot.amount
  {
    var rivals, rest := Rivals(pot.eligible, hero), pot.amount - part;
    RivalsCount(pot.eligible, hero);
    RivalsDifferent(pot.eligible, hero);
    DivMod(rest, |rivals|);
    var last := rivals[|rivals| - 1];
    assert last in rivals;
    assert Place(rivals, last) == |rivals| - 1;
    if rest < 0 {
      assert rest / |rivals| < 0;
      assert PotShare(pot, part, hero, last) < 0;
    }
    assert PotShare(pot, part, hero, hero) == part;
  }

  /** No contested pot pays any seat a negative amount. */
  ghost predicate ChargesNobody(contested: seq<Pot>, parts: seq<int>, hero: nat)
    requires |parts| == |contested| && Shared(contested, hero)
  {
    forall k :: 0 <= k < |contested| ==> PaysAll(contested[k], parts[k], hero)
  }

  ghost predicate PaysAll(pot: Pot, part: int, hero: nat)
    requires |pot.eligible| >= 2 && Different(pot.eligible) && hero in pot.eligible
  {
    forall i :: PotShare(pot, part, hero, i) >= 0
  }

  lemma {:induction false} SharesNonneg(contested: seq<Pot>, parts: seq<int>, hero: nat, i: nat)
    requires |parts| == |contested| && Shared(contested, hero) && ChargesNobody(contested, parts, hero)
    ensures SharesOf(contested, parts, hero, i) >= 0
  {
    if |contested| > 0 {
      var k := |contested| - 1;
      SharesNonneg(contested[..k], parts[..k], hero, i);
      assert PaysAll(contested[k], parts[k], hero);
    }
  }

  lemma {:induction false} SoleNonneg(pots: seq<Pot>, i: nat)
    requires Positive(pots)
    ensures SoleChips(pots, i) >= 0
  {
    if |pots| > 0 { SoleNonneg(pots[..|pots| - 1], i); }
  }

  lemma {:induction false} SortedPositive(pots: seq<Pot>, hero: nat, n: nat)
    requires Shareable(pots, n) && Positive(pots)
    ensures SortPots(pots, hero, n).Some? ==> Positive(SortPots(pots, hero, n).value.contested)
  {
    if |pots| > 0 { SortedPositive(pots[..|pots| - 1], hero, n); }
  }

  lemma CashoutPotsPositive(live: seq<int>, dead: seq<int>, contenders: seq<nat>)
    requires Nonneg(live) && Nonneg(dead) && Winners(contenders, |live|)
    ensures Positive(CashoutPots(live, dead, contenders))
  {
    RefundFits(live);
    var live' := TakeBack(live, Uncalled(live), -1);
    var top := TopExists(live', contenders);
    SidePotsShrink(live', dead, contenders, top, CashoutPots(live, dead, contenders));
  }

  lemma ChargedIfUnfit(contested: seq<Pot>, net: int, hero: nat)
    requires Shared(contested, hero)
    ensures ChargesNobody(contested, PartsOf(contested, net), hero) <==> Fits(contested, net)
  {
    hide PotShare, Parts;
    forall k | 0 <= k < |contested|
      ensures PaysAll(contested[k], PartsOf(contested, net)[k], hero)
         <==> 0 <= PartsOf(contested, net)[k] <= contested[k].amount
    {
      ShareSigns(contested[k], PartsOf(contested, net)[k], hero);
    }
  }

  /** Main result: an offer has every pot pay every seat a nonnegative amount exactly if the chips that are not the hero's
      pay the rests of all contested pots but the biggest, each rounded up; then no payout is negative. */
  lemma CashoutChargesNobody(live: seq<int>, dead: seq<int>, hero: nat, contenders: seq<nat>, heroEq: real, fee: real)
    requires Askable(live, dead, contenders, hero) && Cashout(live, dead, hero, contenders, heroEq, fee).Some?
    ensures var offer, contested := Cashout(live, dead, hero, contenders, heroEq, fee).value,
                                    ContestedPots(live, dead, hero, contenders);
            && (ChargesNobody(contested, PartsOf(contested, offer.net), hero) <==> RoomFor(contested, offer.net))
            && (RoomFor(contested, offer.net) ==> forall i :: 0 <= i < |offer.payouts| ==> offer.payouts[i] >= 0)
  {
    hide ChargesNobody, RoomFor, SharesOf, SoleChips, Parts, Fits;
    var offer, contested := Cashout(live, dead, hero, contenders, heroEq, fee).value, ContestedPots(live, dead, hero, contenders);
    var pots := CashoutPots(live, dead, contenders);
    CashoutPotsPositive(live, dead, contenders);
    SortedPositive(pots, hero, |live|);
    if |contested| == 0 {
      NothingTotal(contested);
      NothingContested(heroEq, fee, Total(contested));
    }
    PartsFitExactly(contested, offer.net);
    ChargedIfUnfit(contested, offer.net, hero);
    if RoomFor(contested, offer.net) {
      forall i | 0 <= i < |live| ensures |offer.payouts| == |live| && offer.payouts[i] >= 0 {
        CashoutPays(live, dead, hero, contenders, heroEq, fee, i);
        SharesNonneg(contested, PartsOf(contested, offer.net), hero, i);
        SoleNonneg(pots, i);
      }
    }
  }

  /** An equity and a fee between none and all give a net within the contested chips. */
  lemma NetWithin(heroEq: real, fee: real, whole: int)
    requires 0.0 <= heroEq <= 1.0 && 0.0 <= fee <= 1.0 && whole >= 0
    ensures 0 <= Net(Gross(heroEq, whole), fee) <= whole
  {
    Fraction(heroEq, whole);
    Fraction(1.0 - fee, Gross(heroEq, whole));
  }

  lemma Fraction(f: real, n: int)
    requires 0.0 <= f <= 1.0 && n >= 0
    ensures 0 <= Trunc(f * n as real) <= n && 0 <= Trunc(n as real * f) <= n
  {
    var x := n as real;
    assert x >= 0.0;
    assert f * x >= 0.0;
    assert (1.0 - f) * x >= 0.0;
    assert f * x <= x;
  }

  // ------------------------------------------------ a rival is charged

  const STAKES: seq<int> := [8, 19, 36, 36]
  const ANTES: seq<int> := [1, 0, 0, 0]
  const SEATED: seq<nat> := [0, 1, 2, 3]

  function SidePots(): (r: seq<Pot>) {
    [Pot(33, [0, 1, 2, 3]), Pot(33, [1, 2, 3]), Pot(34, [2, 3])]
  }

  lemma StakesAre()
    ensures Levels(STAKES) == [8, 19, 36] && Sum(STAKES) == 99 && Sum(ANTES) == 1 && Uncalled(STAKES) == None
  {
    assert STAKES[1..] == [19, 36, 36] && STAKES[1..][1..] == [36, 36] && STAKES[1..][1..][1..] == [36];
    assert Levels([36]) == [36];
    assert Levels([36, 36]) == [36];
    assert Levels([19, 36, 36]) == [19, 36];
    SumFour(STAKES);
    SumFour(ANTES);
    if Uncalled(STAKES).Some? {
      UncalledExact(STAKES, Uncalled(STAKES).value.seat, Uncalled(STAKES).value.chips);
      assert STAKES[2] == STAKES[3] == 36;
    }
  }

  lemma SumFour(s: seq<int>)
    requires |s| == 4
    ensures Sum(s) == s[0] + s[1] + s[2] + s[3]
  {
    assert s[..3][..2] == s[..2] && s[..2][..1] == s[..1] && s[..1][..0] == [];
    assert Sum(s[..1]) == s[0];
    assert Sum(s[..2]) == s[0] + s[1];
    assert Sum(s[..3]) == s[0] + s[1] + s[2];
  }

  lemma LayerFour(live: seq<int>, level: int, previous: int)
    requires |live| == 4
    ensures LayerAmount(live, level, previous)
         == Min(live[0], level) - Min(live[0], previous) + Min(live[1], level) - Min(live[1], previous)
            + Min(live[2], level) - Min(live[2], previous) + Min(live[3], level) - Min(live[3], previous)
  {
    assert live[..3][..2] == live[..2] && live[..2][..1] == live[..1] && live[..1][..0] == [];
    assert LayerAmount(live[..1], level, previous) == Min(live[0], level) - Min(live[0], previous);
    assert LayerAmount(live[..2], level, previous)
        == LayerAmount(live[..1], level, previous) + Min(live[1], level) - Min(live[1], previous);
    assert LayerAmount(live[..3], level, previous)
        == LayerAmount(live[..2], level, previous) + Min(live[2], level) - Min(live[2], previous);
  }

  lemma EligibleAre(level: int)
    ensures Seats(SEATED, 4)
    ensures level == 8 ==> Eligible(SEATED, STAKES, level) == [0, 1, 2, 3]
    ensures level == 19 ==> Eligible(SEATED, STAKES, level) == [1, 2, 3]
    ensures level == 36 ==> Eligible(SEATED, STAKES, level) == [2, 3]
  {
    assert SEATED[1..] == [1, 2, 3] && SEATED[1..][1..] == [2, 3] && SEATED[1..][1..][1..] == [3];
    assert Eligible([3], STAKES, level) == if 36 >= level then [3] else [];
    assert Eligible([2, 3], STAKES, level) == if 36 >= level then [2, 3] else [];
    assert 8 <= level <= 36 ==>
           Eligible([1, 2, 3], STAKES, level) == if 19 >= level then [1, 2, 3] else [2, 3];
  }

  lemma LayersAre()
    ensures Seats(SEATED, 4) && Layers(STAKES, SEATED, [8, 19, 36], 0, [Pot(1, SEATED)]) == SidePots()
  {
    hide Layers, LayerAmount, Eligible;
    EligibleAre(8);
    EligibleAre(19);
    EligibleAre(36);
    LayerFour(STAKES, 8, 0);
    LayerFour(STAKES, 19, 8);
    LayerFour(STAKES, 36, 19);
    var one, two := [Pot(33, [0, 1, 2, 3])], [Pot(33, [0, 1, 2, 3]), Pot(33, [1, 2, 3])];
    LayersStep(STAKES, SEATED, [8, 19, 36], 0, [Pot(1, SEATED)]);
    assert [8, 19, 36][1..] == [19, 36] && AddLayer([Pot(1, SEATED)], 32, [0, 1, 2, 3]) == one;
    LayersStep(STAKES, SEATED, [19, 36], 8, one);
    assert [19, 36][1..] == [36] && AddLayer(one, 33, [1, 2, 3]) == two;
    LayersStep(STAKES, SEATED, [36], 19, two);
    assert [36][1..] == [] && AddLayer(two, 34, [2, 3]) == SidePots();
    LayersDone(STAKES, SEATED, 36, SidePots());
  }

  lemma LayersDone(live: seq<int>, contenders: seq<nat>, previous: int, pots: seq<Pot>)
    requires Seats(contenders, |live|)
    ensures Layers(live, contenders, [], previous, pots) == pots
  {
  }

  lemma SidePotsTotal()
    ensures Total(SidePots()) == 100 && Biggest(SidePots()) == 2
  {
    var pots := SidePots();
    var one, two := [pots[0]], [pots[0], pots[1]];
    assert pots[..2] == two && two[..1] == one && one[..0] == [];
    assert Total(one) == 33 && Total(two) == 66;
    assert Biggest(one) == 0 && Biggest(two) == 0;
  }

  lemma PotsAre()
    ensures Askable(STAKES, ANTES, SEATED, 3) && CashoutPots(STAKES, ANTES, SEATED) == SidePots()
  {
    hide Layers, Uncalled, Levels, Total;
    StakesAre();
    LayersAre();
    SidePotsTotal();
  }

  /** A hero in every pot, with rivals, contests them all. */
  lemma {:induction false} AllSorted(pots: seq<Pot>, hero: nat, n: nat)
    requires Shareable(pots, n) && Shared(pots, hero)
    ensures SortPots(pots, hero, n) == Some(Sorting(Zeros(n), pots))
  {
    if |pots| > 0 {
      AllSorted(pots[..|pots| - 1], hero, n);
      assert pots == pots[..|pots| - 1] + [pots[|pots| - 1]];
    }
  }

  lemma SortedAre()
    ensures Shareable(SidePots(), 4) && SortPots(SidePots(), 3, 4) == Some(Sorting(Zeros(4), SidePots()))
  {
    hide SortPots;
    assert Shared(SidePots(), 3);
    AllSorted(SidePots(), 3, 4);
  }

  lemma PartsAre()
    ensures PartsOf(SidePots(), 99) == [32, 32, 35]
  {
    hide Sum, Total;
    SidePotsTotal();
    assert Proportions(SidePots(), 99, 100) == [32, 32, 33];
    SumFour([32, 32, 33, 0]);
    SumThree([32, 32, 33]);
  }

  lemma SumThree(s: seq<int>)
    requires |s| == 3
    ensures Sum(s) == s[0] + s[1] + s[2]
  {
    SumFour(s + [0]);
    assert (s + [0])[..3] == s;
  }

  lemma SharesThree(pots: seq<Pot>, parts: seq<int>, hero: nat, i: nat)
    requires |pots| == |parts| == 3 && Shared(pots, hero)
    ensures SharesOf(pots, parts, hero, i)
         == PotShare(pots[0], parts[0], hero, i) + PotShare(pots[1], parts[1], hero, i) + PotShare(pots[2], parts[2], hero, i)
  {
    hide PotShare;
    assert pots[..2][..1] == pots[..1] && parts[..2][..1] == parts[..1] && pots[..1][..0] == [];
    assert SharesOf(pots[..1], parts[..1], hero, i) == PotShare(pots[0], parts[0], hero, i);
  }

  /** From the first pot the rivals get the one chip in seat 0, from the second in seat 1; the last takes a chip from seat 2. */
  lemma SharesAre()
    ensures Shared(SidePots(), 3) && SharesOf(SidePots(), [32, 32, 35], 3, 2) == -1
  {
    hide PotShare, SharesOf;
    var pots := SidePots();
    assert Shared(pots, 3);
    SharesThree(pots, [32, 32, 35], 3, 2);
    ShareIs(pots[0], [0, 1, 2], 3, 32, 2);
    ShareIs(pots[1], [1, 2], 3, 32, 2);
    ShareIs(pots[2], [2], 3, 35, 2);
  }

  /** The share of rival `i` in a pot whose rivals are known, the hero sitting last. */
  lemma ShareIs(pot: Pot, rivals: seq<nat>, hero: nat, part: int, i: nat)
    requires |rivals| > 0 && hero !in rivals && pot.eligible == rivals + [hero] && Different(pot.eligible) && i in rivals
    ensures PotShare(pot, part, hero, i) == (pot.amount - part) / |rivals|
              + (if Place(rivals, i) < (pot.amount - part) % |rivals| then 1 else 0)
  {
    HeroLast(rivals, hero);
  }

  lemma HeroLast(rivals: seq<nat>, hero: nat)
    requires hero !in rivals
    ensures Rivals(rivals + [hero], hero) == rivals
  {
    assert (rivals + [hero])[..|rivals|] == rivals;
    NoHero(rivals, hero);
  }

  lemma {:induction false} NoHero(s: seq<nat>, hero: nat)
    requires hero !in s
    ensures Rivals(s, hero) == s
  {
    if |s| > 0 { NoHero(s[..|s| - 1], hero); }
  }

  /** Stakes of 8, 19, 36 and 36, an ante of 1 and a hero sure to win, at the default fee of one percent: the offer takes a
      chip from seat 2, who has put in as much as the hero. */
  lemma CashoutChargesRival()
    ensures Askable(STAKES, ANTES, SEATED, 3)
    ensures var r := Cashout(STAKES, ANTES, 3, SEATED, 1.0, 0.01);
            r.Some? && r.value.net == 99 && |r.value.payouts| == 4 && r.value.payouts[2] == -1 && r.value.payouts[3] == 99
  {
    hide SharesOf, SoleChips, Parts, SortPots, CashoutPots, Divide;
    PotsAre();
    SortedAre();
    SidePotsTotal();
    PartsAre();
    SharesAre();
    NoSole(2);
    NoSole(3);
    CashoutPays(STAKES, ANTES, 3, SEATED, 1.0, 0.01, 2);
    CashoutHero(STAKES, ANTES, 3, SEATED, 1.0, 0.01);
  }

  lemma NoSole(i: nat)
    ensures SoleChips(SidePots(), i) == 0
  {
    var pots := SidePots();
    assert pots[..2][..1] == pots[..1] && pots[..1][..0] == [];
    assert SoleChips(pots[..1], i) == 0;
    assert SoleChips(pots[..2], i) == 0;
  }
}
