/** Awarding the pots by score, and settling a hand whose player dropped (holdem/engine.py). */
module Awards {
  import opened Sums
  import opened Evaluator
  import opened Pots
  import opened Settlement

  type Scores = map<nat, Score>

  // ------------------------------------------------ winners of a pot

  function BestOf(eligible: seq<nat>, sc: Scores): (best: Score)
    requires |eligible| > 0 && forall i :: i in eligible ==> i in sc
  {
    var last := sc[eligible[|eligible| - 1]];
    if |eligible| == 1 then last
    else
      var rest := BestOf(eligible[..|eligible| - 1], sc);
      if ScoreLe(last, rest) then rest else last
  }

  /** `[i for i in elig if sc[i] == best]`. */
  function Having(eligible: seq<nat>, sc: Scores, best: Score): (r: seq<nat>)
    requires forall i :: i in eligible ==> i in sc
  {
    if |eligible| == 0 then []
    else
      var i := eligible[|eligible| - 1];
      Having(eligible[..|eligible| - 1], sc, best) + (if sc[i] == best then [i] else [])
  }

  function WinnersOf(eligible: seq<nat>, sc: Scores): (r: seq<nat>)
    requires |eligible| > 0 && forall i :: i in eligible ==> i in sc
  {
    Having(eligible, sc, BestOf(eligible, sc))
  }

  lemma {:induction false} BestOfBounds(eligible: seq<nat>, sc: Scores)
    requires |eligible| > 0 && forall i :: i in eligible ==> i in sc
    ensures exists i :: i in eligible && sc[i] == BestOf(eligible, sc)
    ensures forall i :: i in eligible ==> ScoreLe(sc[i], BestOf(eligible, sc))
  {
    var n := |eligible| - 1;
    var last := sc[eligible[n]];
    ScoreOrder(last, last);
    assert eligible == eligible[..n] + [eligible[n]];
    if n > 0 {
      BestOfBounds(eligible[..n], sc);
      var rest := BestOf(eligible[..n], sc);
      ScoreOrder(last, rest);
      forall i | i in eligible ensures ScoreLe(sc[i], BestOf(eligible, sc)) {
        if i in eligible[..n] && !ScoreLe(last, rest) {
          ScoreTransitive(sc[i], rest, last);
        }
      }
    }
  }

  lemma ScoreTransitive(a: Score, b: Score, c: Score)
    requires ScoreLe(a, b) && ScoreLe(b, c)
    ensures ScoreLe(a, c)
  {
    if a.cat == b.cat == c.cat { LexTransitive(a.tb, b.tb, c.tb); }
  }

  lemma {:induction false} HavingIs(eligible: seq<nat>, sc: Scores, best: Score)
    requires forall i :: i in eligible ==> i in sc
    ensures forall i :: i in Having(eligible, sc, best) <==> i in eligible && sc[i] == best
    ensures Different(eligible) ==> Different(Having(eligible, sc, best))
  {
    if |eligible| > 0 {
      var n := |eligible| - 1;
      HavingIs(eligible[..n], sc, best);
      assert eligible == eligible[..n] + [eligible[n]];
    }
  }

  /** The winners are the eligible seats that no eligible seat outscores, and there is one. */
  lemma WinnersAreBest(eligible: seq<nat>, sc: Scores)
    requires |eligible| > 0 && forall i :: i in eligible ==> i in sc
    ensures |WinnersOf(eligible, sc)| > 0
    ensures Within(WinnersOf(eligible, sc), eligible)
    ensures Different(eligible) ==> Different(WinnersOf(eligible, sc))
    ensures forall i :: i in WinnersOf(eligible, sc) <==>
              i in eligible && forall j :: j in eligible ==> ScoreLe(sc[j], sc[i])
  {
    var best := BestOf(eligible, sc);
    BestOfBounds(eligible, sc);
    HavingIs(eligible, sc, best);
    var w :| w in eligible && sc[w] == best;
    assert w in WinnersOf(eligible, sc);
    forall i | i in eligible && forall j :: j in eligible ==> ScoreLe(sc[j], sc[i]) ensures sc[i] == best {
      assert ScoreLe(sc[w], sc[i]);
      ScoreOrder(sc[i], best);
    }
  }

  lemma {:induction false} AllHave(eligible: seq<nat>, sc: Scores, best: Score)
    requires forall i :: i in eligible ==> i in sc && sc[i] == best
    ensures Having(eligible, sc, best) == eligible
  {
    if |eligible| > 0 {
      AllHave(eligible[..|eligible| - 1], sc, best);
      assert eligible[|eligible| - 1] in eligible;
    }
  }

  // --------------------------------------------------- awarding pots

  /** Each pot names different seats at the table, scored in every run when more than one is left. */
  ghost predicate Awardable(pot: Pot, n: nat, alive: seq<nat>, runs: seq<Scores>) {
    && pot.amount >= 0 && Winners(pot.eligible, n)
    && (|alive| == 1 ==> alive[0] in pot.eligible)
    && (|alive| != 1 ==> forall r :: 0 <= r < |runs| ==> Scored(pot.eligible, runs[r]))
  }

  predicate Scored(eligible: seq<nat>, sc: Scores) {
    forall i :: i in eligible ==> i in sc
  }

  function RunCount(alive: seq<nat>, runs: seq<Scores>): (k: nat) {
    if |alive| > 1 && |runs| > 0 then |runs| else 1
  }

  /** The winners of a pot in run `r`: a last seat left wins without a score. */
  function RunWinners(alive: seq<nat>, eligible: seq<nat>, runs: seq<Scores>, r: nat): (w: seq<nat>)
    requires |alive| == 1 || (r < |runs| && |eligible| > 0 && Scored(eligible, runs[r]))
  {
    if |alive| == 1 then [alive[0]] else WinnersOf(eligible, runs[r])
  }

  /** A pot's chips for run `r`; the chips that do not divide go to run 1. */
  function RunAmount(amount: int, count: nat, r: nat): (a: int)
    requires count > 0
  {
    amount / count + (if r == 0 then amount - count * (amount / count) else 0)
  }

  lemma RunWinnersFit(alive: seq<nat>, pot: Pot, runs: seq<Scores>, r: nat, n: nat)
    requires Awardable(pot, n, alive, runs) && |alive| > 0 && (|alive| > 1 ==> r < |runs|)
    ensures Winners(RunWinners(alive, pot.eligible, runs, r), n)
    ensures Within(RunWinners(alive, pot.eligible, runs, r), pot.eligible)
  {
    if |alive| > 1 {
      WinnersAreBest(pot.eligible, runs[r]);
      var w := RunWinners(alive, pot.eligible, runs, r);
      forall k | 0 <= k < |w| ensures w[k] < n {
        assert w[k] in w;
        assert w[k] in pot.eligible;
      }
    }
  }

  /** The first `count` runs of one pot. */
  function AwardRuns(chips: seq<int>, alive: seq<nat>, pot: Pot, runs: seq<Scores>, button: nat, r: nat): (out: seq<int>)
    requires Awardable(pot, |chips|, alive, runs) && |alive| > 0 && (|alive| > 1 ==> |runs| > 0) && button < |chips|
    requires r <= RunCount(alive, runs)
    ensures |out| == |chips|
  {
    if r == 0 then chips
    else
      RunWinnersFit(alive, pot, runs, r - 1, |chips|);
      Share(AwardRuns(chips, alive, pot, runs, button, r - 1),
            RunWinners(alive, pot.eligible, runs, r - 1),
            RunAmount(pot.amount, RunCount(alive, runs), r - 1), button)
  }

  function AwardPot(chips: seq<int>, alive: seq<nat>, pot: Pot, runs: seq<Scores>, button: nat): (out: seq<int>)
    requires Awardable(pot, |chips|, alive, runs) && |alive| > 0 && (|alive| > 1 ==> |runs| > 0) && button < |chips|
    ensures |out| == |chips|
  {
    AwardRuns(chips, alive, pot, runs, button, RunCount(alive, runs))
  }

  ghost predicate AllAwardable(pots: seq<Pot>, n: nat, alive: seq<nat>, runs: seq<Scores>) {
    forall k :: 0 <= k < |pots| ==> Awardable(pots[k], n, alive, runs)
  }

  function AwardPots(chips: seq<int>, alive: seq<nat>, pots: seq<Pot>, runs: seq<Scores>, button: nat): (out: seq<int>)
    requires AllAwardable(pots, |chips|, alive, runs) && |alive| > 0 && (|alive| > 1 ==> |runs| > 0) && button < |chips|
    ensures |out| == |chips|
  {
    if |pots| == 0 then chips
    else AwardPot(AwardPots(chips, alive, pots[..|pots| - 1], runs, button), alive, pots[|pots| - 1], runs, button)
  }

  /** The chips awarded over the first `r` runs. */
  function RunsTotal(amount: int, count: nat, r: nat): (a: int)
    requires count > 0 && r <= count
  {
    if r == 0 then 0 else RunsTotal(amount, count, r - 1) + RunAmount(amount, count, r - 1)
  }

  lemma {:induction false} RunsTotalIs(amount: int, count: nat, r: nat)
    requires 0 < r <= count
    ensures RunsTotal(amount, count, r) == r * (amount / count) + (amount - count * (amount / count))
  {
    if r > 1 {
      RunsTotalIs(amount, count, r - 1);
      assert (r - 1) * (amount / count) + amount / count == r * (amount / count);
    }
  }

  lemma RunAmountNonneg(amount: int, count: nat, r: nat)
    requires amount >= 0 && count > 0
    ensures RunAmount(amount, count, r) >= 0
  {
    DivMod(amount, count);
  }

  /** One pot's award: its chips, all of them, to eligible seats. */
  lemma {:induction false} AwardRunsFacts(chips: seq<int>, alive: seq<nat>, pot: Pot, runs: seq<Scores>, button: nat, r: nat, i: nat)
    requires Awardable(pot, |chips|, alive, runs) && |alive| > 0 && (|alive| > 1 ==> |runs| > 0) && button < |chips|
    requires r <= RunCount(alive, runs) && i < |chips|
    ensures Sum(AwardRuns(chips, alive, pot, runs, button, r))
              == Sum(chips) + RunsTotal(pot.amount, RunCount(alive, runs), r)
    ensures AwardRuns(chips, alive, pot, runs, button, r)[i] >= chips[i]
    ensures i !in pot.eligible ==> AwardRuns(chips, alive, pot, runs, button, r)[i] == chips[i]
  {
    hide Share, RunAmount, RunWinners, Sum, Scored;
    if r > 0 {
      AwardRunsFacts(chips, alive, pot, runs, button, r - 1, i);
      RunWinnersFit(alive, pot, runs, r - 1, |chips|);
      var before, w := AwardRuns(chips, alive, pot, runs, button, r - 1), RunWinners(alive, pot.eligible, runs, r - 1);
      var amount := RunAmount(pot.amount, RunCount(alive, runs), r - 1);
      RunAmountNonneg(pot.amount, RunCount(alive, runs), r - 1);
      ShareSum(before, w, amount, button);
      ShareOnlyWinners(before, w, amount, button, i);
    }
  }

  lemma AwardPotFacts(chips: seq<int>, alive: seq<nat>, pot: Pot, runs: seq<Scores>, button: nat)
    requires Awardable(pot, |chips|, alive, runs) && |alive| > 0 && (|alive| > 1 ==> |runs| > 0) && button < |chips|
    ensures Sum(AwardPot(chips, alive, pot, runs, button)) == Sum(chips) + pot.amount
    ensures forall i :: 0 <= i < |chips| ==> chips[i] <= AwardPot(chips, alive, pot, runs, button)[i] <= chips[i] + pot.amount
    ensures forall i :: 0 <= i < |chips| && i !in pot.eligible ==> AwardPot(chips, alive, pot, runs, button)[i] == chips[i]
  {
    var out, count := AwardPot(chips, alive, pot, runs, button), RunCount(alive, runs);
    RunsTotalIs(pot.amount, count, count);
    forall i | 0 <= i < |chips|
      ensures out[i] >= chips[i] && (i !in pot.eligible ==> out[i] == chips[i]) && Sum(out) == Sum(chips) + pot.amount
    {
      AwardRunsFacts(chips, alive, pot, runs, button, count, i);
    }
    GainsBounded(chips, out);
  }

  lemma GainsBounded(a: seq<int>, b: seq<int>)
    requires |a| == |b| && forall i :: 0 <= i < |a| ==> a[i] <= b[i]
    ensures forall i :: 0 <= i < |a| ==> b[i] - a[i] <= Sum(b) - Sum(a)
  {
    var d := seq(|a|, i requires 0 <= i < |a| => b[i] - a[i]);
    SumPlus(a, d, b);
    SumNonneg(d);
  }

  lemma {:induction false} AwardTotal(chips: seq<int>, alive: seq<nat>, pots: seq<Pot>, runs: seq<Scores>, button: nat)
    requires AllAwardable(pots, |chips|, alive, runs) && |alive| > 0 && (|alive| > 1 ==> |runs| > 0) && button < |chips|
    ensures Sum(AwardPots(chips, alive, pots, runs, button)) == Sum(chips) + Total(pots)
  {
    hide Sum, AwardPot, Awardable;
    if |pots| > 0 {
      var k := |pots| - 1;
      AwardTotal(chips, alive, pots[..k], runs, button);
      AwardPotFacts(AwardPots(chips, alive, pots[..k], runs, button), alive, pots[k], runs, button);
    }
  }

  lemma {:induction false} AwardSeat(chips: seq<int>, alive: seq<nat>, pots: seq<Pot>, runs: seq<Scores>, button: nat, i: nat)
    requires AllAwardable(pots, |chips|, alive, runs) && |alive| > 0 && (|alive| > 1 ==> |runs| > 0) && button < |chips|
    requires i < |chips|
    ensures chips[i] <= AwardPots(chips, alive, pots, runs, button)[i] <= chips[i] + Listed(pots, i)
  {
    hide Sum, AwardPot, Awardable;
    if |pots| > 0 {
      var k := |pots| - 1;
      AwardSeat(chips, alive, pots[..k], runs, button, i);
      AwardPotFacts(AwardPots(chips, alive, pots[..k], runs, button), alive, pots[k], runs, button);
    }
  }

  /** All pots: every chip is paid, and no seat wins more than it is listed for. */
  lemma AwardConserves(chips: seq<int>, alive: seq<nat>, pots: seq<Pot>, runs: seq<Scores>, button: nat)
    requires AllAwardable(pots, |chips|, alive, runs) && |alive| > 0 && (|alive| > 1 ==> |runs| > 0) && button < |chips|
    ensures Sum(AwardPots(chips, alive, pots, runs, button)) == Sum(chips) + Total(pots)
    ensures forall i :: 0 <= i < |chips| ==>
              chips[i] <= AwardPots(chips, alive, pots, runs, button)[i] <= chips[i] + Listed(pots, i)
  {
    hide Sum, AwardPots, AllAwardable, Listed, Total;
    AwardTotal(chips, alive, pots, runs, button);
    forall i | 0 <= i < |chips|
      ensures chips[i] <= AwardPots(chips, alive, pots, runs, button)[i] <= chips[i] + Listed(pots, i)
    {
      AwardSeat(chips, alive, pots, runs, button, i);
    }
  }

  // -------------------------------------------- the chips of `settle`

  datatype Payout = Payout(stacks: seq<int>, refund: Option<Refund>, pots: seq<Pot>)

  /** A table of `n` seats in the middle of a hand, `alive` being the seats left in it. */
  ghost predicate InHand(stacks: seq<int>, live: seq<int>, dead: seq<int>, alive: seq<nat>, button: nat) {
    && |stacks| == |live| == |dead| && Nonneg(live) && Nonneg(dead)
    && Winners(alive, |stacks|) && button < |stacks|
  }

  ghost predicate RunsScored(alive: seq<nat>, runs: seq<Scores>) {
    |alive| > 1 ==> |runs| > 0 && forall r :: 0 <= r < |runs| ==> Scored(alive, runs[r])
  }

  function TakeBack(chips: seq<int>, refund: Option<Refund>, sign: int): (r: seq<int>)
    requires refund.Some? ==> refund.value.seat < |chips|
    ensures |r| == |chips|
  {
    if refund.None? then chips
    else chips[refund.value.seat := chips[refund.value.seat] + sign * refund.value.chips]
  }

  lemma RefundFits(live: seq<int>)
    requires Nonneg(live)
    ensures Uncalled(live).Some? ==> Uncalled(live).value.seat < |live| && Uncalled(live).value.chips > 0
    ensures Nonneg(TakeBack(live, Uncalled(live), -1))
  {
    if Uncalled(live).Some? { UncalledSound(live); }
  }

  lemma PotsAwardable(live: seq<int>, dead: seq<int>, alive: seq<nat>, runs: seq<Scores>, pots: seq<Pot>)
    requires Nonneg(live) && Nonneg(dead) && Winners(alive, |live|) && RunsScored(alive, runs)
    requires pots == PotLayers(live, dead, alive)
    ensures AllAwardable(pots, |live|, alive, runs)
  {
    var top := TopExists(live, alive);
    SidePotsShrink(live, dead, alive, top, pots);
    forall k | 0 <= k < |pots| ensures Awardable(pots[k], |live|, alive, runs) {
      var e := pots[k].eligible;
      assert Within(e, alive);
      forall i | 0 <= i < |e| ensures e[i] < |live| {
        assert e[i] in e;
      }
      assert e[0] in e;
    }
  }

  /** Steps 1, 4 and 5 of `settle`: refund, pots, award. */
  function SettleChips(stacks: seq<int>, live: seq<int>, dead: seq<int>, alive: seq<nat>, runs: seq<Scores>, button: nat): (r: Payout)
    requires InHand(stacks, live, dead, alive, button) && RunsScored(alive, runs)
    ensures |r.stacks| == |stacks|
  {
    var refund := Uncalled(live);
    RefundFits(live);
    var live' := TakeBack(live, refund, -1);
    var pots := PotLayers(live', dead, alive);
    PotsAwardable(live', dead, alive, runs, pots);
    Payout(AwardPots(TakeBack(stacks, refund, 1), alive, pots, runs, button), refund, pots)
  }

  lemma TakeBackSum(chips: seq<int>, refund: Option<Refund>, sign: int)
    requires refund.Some? ==> refund.value.seat < |chips|
    ensures Sum(TakeBack(chips, refund, sign)) == Sum(chips) + (if refund.Some? then sign * refund.value.chips else 0)
  {
    hide Sum;
    if refund.Some? {
      var back := sign * refund.value.chips;
      SumUpdate(chips, refund.value.seat, chips[refund.value.seat] + back);
    }
  }

  /** Chips the refund brings back to seat `i`. */
  function BackTo(live: seq<int>, i: int): (chips: int) {
    match Uncalled(live)
    case None => 0
    case Some(refund) => if refund.seat == i then refund.chips else 0
  }

  /** Settlement keeps every chip; a seat gets back its uncalled bet and wins at most what it is listed for. */
  lemma SettleConserves(stacks: seq<int>, live: seq<int>, dead: seq<int>, alive: seq<nat>, runs: seq<Scores>, button: nat)
    requires InHand(stacks, live, dead, alive, button) && RunsScored(alive, runs)
    ensures var r := SettleChips(stacks, live, dead, alive, runs, button);
            && Sum(r.stacks) == Sum(stacks) + Sum(live) + Sum(dead)
            && forall i :: 0 <= i < |stacks| ==>
                 stacks[i] + BackTo(live, i) <= r.stacks[i] <= stacks[i] + BackTo(live, i) + Listed(r.pots, i)
  {
    var refund := Uncalled(live);
    RefundFits(live);
    var live' := TakeBack(live, refund, -1);
    var pots := PotLayers(live', dead, alive);
    PotsAwardable(live', dead, alive, runs, pots);
    PotsHoldAllChips(live', dead, alive);
    TakeBackSum(live, refund, -1);
    TakeBackSum(stacks, refund, 1);
    AwardConserves(TakeBack(stacks, refund, 1), alive, pots, runs, button);
  }

  /** A seat out of the hand wins nothing: it only gets back its own uncalled bet. */
  lemma SettleOutsider(stacks: seq<int>, live: seq<int>, dead: seq<int>, alive: seq<nat>, runs: seq<Scores>, button: nat, i: nat)
    requires InHand(stacks, live, dead, alive, button) && RunsScored(alive, runs)
    requires i < |stacks| && i !in alive
    ensures SettleChips(stacks, live, dead, alive, runs, button).stacks[i] == stacks[i] + BackTo(live, i)
  {
    var refund := Uncalled(live);
    RefundFits(live);
    var live' := TakeBack(live, refund, -1);
    var pots := PotLayers(live', dead, alive);
    PotsAwardable(live', dead, alive, runs, pots);
    var top := TopExists(live', alive);
    SidePotsShrink(live', dead, alive, top, pots);
    NotListed(pots, i);
    AwardConserves(TakeBack(stacks, refund, 1), alive, pots, runs, button);
  }

  lemma {:induction false} NotListed(pots: seq<Pot>, i: nat)
    requires forall k :: 0 <= k < |pots| ==> i !in pots[k].eligible
    ensures Listed(pots, i) == 0
  {
    if |pots| > 0 { NotListed(pots[..|pots| - 1], i); }
  }

  // ------------------------------------------------ settle_forfeit

  datatype Outcome<T> = Ok(value: T) | Refused

  /** The seats of `S` in order. */
  function InOrder(S: set<int>, n: nat): (r: seq<nat>)
    ensures forall i :: i in r <==> i in S && 0 <= i < n
    ensures Different(r) && forall k :: 0 <= k < |r| ==> r[k] < n
  {
    if n == 0 then []
    else InOrder(S, n - 1) + (if n - 1 in S then [n - 1] else [])
  }

  /** Seats left in the hand once `dropped` is gone. */
  function Left(inHand: seq<int>, dropped: int, n: nat): (r: seq<nat>) {
    InOrder((set i | i in inHand) - {dropped}, n)
  }

  predicate WellFormed(stacks: seq<int>, live: seq<int>, dead: seq<int>, inHand: seq<int>, dropped: int, button: int) {
    && |live| == |stacks| && |dead| == |stacks|
    && Nonneg(stacks) && Nonneg(live) && Nonneg(dead)
    && 0 <= dropped < |stacks| && 0 <= button < |stacks|
    && forall k :: 0 <= k < |inHand| ==> 0 <= inHand[k] < |stacks|
  }

  function SharePots(chips: seq<int>, pots: seq<Pot>, button: nat): (r: seq<int>)
    requires button < |chips| && forall k :: 0 <= k < |pots| ==> Winners(pots[k].eligible, |chips|)
    ensures |r| == |chips|
  {
    if |pots| == 0 then chips
    else
      var last := pots[|pots| - 1];
      Share(SharePots(chips, pots[..|pots| - 1], button), last.eligible, last.amount, button)
  }

  /** The refund `settle` would make, unless it would go to the dropper. */
  function KeptRefund(live: seq<int>, dropped: int): (r: Option<Refund>) {
    match Uncalled(live)
    case None => None
    case Some(refund) => if refund.seat == dropped then None else Some(refund)
  }

  lemma KeptRefundFits(live: seq<int>, dropped: int)
    requires Nonneg(live)
    ensures KeptRefund(live, dropped).Some? ==> KeptRefund(live, dropped).value.seat < |live|
    ensures Nonneg(TakeBack(live, KeptRefund(live, dropped), -1))
  {
    RefundFits(live);
  }

  lemma PotsShareable(live: seq<int>, dead: seq<int>, left: seq<nat>, pots: seq<Pot>)
    requires Nonneg(live) && Nonneg(dead) && Winners(left, |live|) && pots == PotLayers(live, dead, left)
    ensures forall k :: 0 <= k < |pots| ==> Winners(pots[k].eligible, |live|) && Within(pots[k].eligible, left)
  {
    var top := TopExists(live, left);
    SidePotsShrink(live, dead, left, top, pots);
    forall k | 0 <= k < |pots| ensures Winners(pots[k].eligible, |live|) {
      var e := pots[k].eligible;
      assert Within(e, left);
      forall i | 0 <= i < |e| ensures e[i] < |live| {
        assert e[i] in e;
      }
    }
  }

  /** The chips of a forfeit: every pot is shared equally by the seats left in it; the dropper's bets stay in. */
  function ForfeitChips(stacks: seq<int>, live: seq<int>, dead: seq<int>, left: seq<nat>, dropped: int, button: nat): (r: Payout)
    requires InHand(stacks, live, dead, left, button)
  {
    var refund := KeptRefund(live, dropped);
    KeptRefundFits(live, dropped);
    var live' := TakeBack(live, refund, -1);
    var pots := PotLayers(live', dead, left);
    PotsShareable(live', dead, left, pots);
    Payout(SharePots(TakeBack(stacks, refund, 1), pots, button), refund, pots)
  }

  /** `settle_forfeit`: a malformed table, or one with nobody else in the hand, is refused. */
  function Forfeit(stacks: seq<int>, live: seq<int>, dead: seq<int>, inHand: seq<int>, dropped: int, button: int): (r: Outcome<Payout>) {
    if !WellFormed(stacks, live, dead, inHand, dropped, button) then Refused
    else
      var left := Left(inHand, dropped, |stacks|);
      if |left| == 0 then Refused else Ok(ForfeitChips(stacks, live, dead, left, dropped, button))
  }

  lemma {:induction false} SharePotsFacts(chips: seq<int>, pots: seq<Pot>, button: nat)
    requires button < |chips| && forall k :: 0 <= k < |pots| ==> Winners(pots[k].eligible, |chips|)
    ensures Sum(SharePots(chips, pots, button)) == Sum(chips) + Total(pots)
    ensures forall i :: 0 <= i < |chips| && (forall k :: 0 <= k < |pots| ==> i !in pots[k].eligible)
              ==> SharePots(chips, pots, button)[i] == chips[i]
  {
    if |pots| > 0 {
      var k := |pots| - 1;
      SharePotsFacts(chips, pots[..k], button);
      var before := SharePots(chips, pots[..k], button);
      ShareSum(before, pots[k].eligible, pots[k].amount, button);
      forall i | 0 <= i < |chips| && (forall k :: 0 <= k < |pots| ==> i !in pots[k].eligible)
        ensures SharePots(chips, pots, button)[i] == chips[i]
      {
        ShareOnlyWinners(before, pots[k].eligible, pots[k].amount, button, i);
      }
    }
  }

  /** A forfeit keeps every chip and leaves the dropper's stack as it was. */
  lemma ForfeitConserves(stacks: seq<int>, live: seq<int>, dead: seq<int>, inHand: seq<int>, dropped: int, button: int)
    requires Forfeit(stacks, live, dead, inHand, dropped, button).Ok?
    ensures var r := Forfeit(stacks, live, dead, inHand, dropped, button).value;
            && |r.stacks| == |stacks|
            && Sum(r.stacks) == Sum(stacks) + Sum(live) + Sum(dead)
            && r.stacks[dropped] == stacks[dropped]
  {
    var left, refund := Left(inHand, dropped, |stacks|), KeptRefund(live, dropped);
    KeptRefundFits(live, dropped);
    var live' := TakeBack(live, refund, -1);
    var pots := PotLayers(live', dead, left);
    PotsShareable(live', dead, left, pots);
    PotsHoldAllChips(live', dead, left);
    TakeBackSum(live, refund, -1);
    TakeBackSum(stacks, refund, 1);
    SharePotsFacts(TakeBack(stacks, refund, 1), pots, button);
    assert dropped !in left;
  }

  // ------------------------------------------- the two settlements agree

  ghost predicate Tied(alive: seq<nat>, sc: Scores) {
    Scored(alive, sc) && forall i, j :: i in alive && j in alive ==> sc[i] == sc[j]
  }

  lemma TiedShare(chips: seq<int>, alive: seq<nat>, pot: Pot, sc: Scores, button: nat)
    requires Winners(alive, |chips|) && Tied(alive, sc) && button < |chips|
    requires Awardable(pot, |chips|, alive, [sc]) && Within(pot.eligible, alive)
    ensures AwardPot(chips, alive, pot, [sc], button) == Share(chips, pot.eligible, pot.amount, button)
  {
    var runs, e := [sc], pot.eligible;
    assert AwardRuns(chips, alive, pot, runs, button, 0) == chips;
    assert RunAmount(pot.amount, 1, 0) == pot.amount;
    RunWinnersFit(alive, pot, runs, 0, |chips|);
    if |alive| == 1 {
      OnlySeat(e, alive[0], alive);
    } else {
      BestOfBounds(e, sc);
      AllHave(e, sc, BestOf(e, sc));
    }
    assert RunWinners(alive, e, runs, 0) == e;
  }

  lemma OnlySeat(e: seq<nat>, a: nat, alive: seq<nat>)
    requires Different(e) && Within(e, alive) && alive == [a] && |e| > 0
    ensures e == [a]
  {
    SeatCount(e);
    assert forall k :: 0 <= k < |e| ==> e[k] in e;
    assert SeatSet(e) == {a};
  }

  lemma {:induction false} TiedPots(chips: seq<int>, alive: seq<nat>, pots: seq<Pot>, sc: Scores, button: nat)
    requires Winners(alive, |chips|) && Tied(alive, sc) && button < |chips|
    requires AllAwardable(pots, |chips|, alive, [sc])
    requires forall k :: 0 <= k < |pots| ==> Within(pots[k].eligible, alive)
    ensures AwardPots(chips, alive, pots, [sc], button) == SharePots(chips, pots, button)
  {
    if |pots| > 0 {
      var k := |pots| - 1;
      TiedPots(chips, alive, pots[..k], sc, button);
      TiedShare(AwardPots(chips, alive, pots[..k], [sc], button), alive, pots[k], sc, button);
    }
  }

  /** On a tie, run once, the two settlements give the same stacks exactly when the dropper has no uncalled bet. */
  lemma ForfeitAgrees(stacks: seq<int>, live: seq<int>, dead: seq<int>, inHand: seq<int>, dropped: int, button: int, sc: Scores)
    requires WellFormed(stacks, live, dead, inHand, dropped, button)
    requires var left := Left(inHand, dropped, |stacks|); |left| > 0 && Tied(left, sc)
    ensures Forfeit(stacks, live, dead, inHand, dropped, button).Ok?
    ensures var left := Left(inHand, dropped, |stacks|);
            InHand(stacks, live, dead, left, button) && RunsScored(left, [sc])
    ensures var left := Left(inHand, dropped, |stacks|);
            Forfeit(stacks, live, dead, inHand, dropped, button).value.stacks
              == SettleChips(stacks, live, dead, left, [sc], button).stacks
            <==> !exists chips :: IsUncalled(live, dropped, chips)
  {
    var left := Left(inHand, dropped, |stacks|);
    var forfeit := Forfeit(stacks, live, dead, inHand, dropped, button).value;
    var settled := SettleChips(stacks, live, dead, left, [sc], button);
    assert dropped !in left;
    if exists chips :: IsUncalled(live, dropped, chips) {
      var chips :| IsUncalled(live, dropped, chips);
      UncalledExact(live, dropped, chips);
      SettleOutsider(stacks, live, dead, left, [sc], button, dropped);
      ForfeitConserves(stacks, live, dead, inHand, dropped, button);
      assert forfeit.stacks[dropped] != settled.stacks[dropped];
    } else {
      SameRefund(live, dropped);
      var refund := Uncalled(live);
      RefundFits(live);
      var live' := TakeBack(live, refund, -1);
      var pots := PotLayers(live', dead, left);
      PotsShareable(live', dead, left, pots);
      PotsAwardable(live', dead, left, [sc], pots);
      TiedPots(TakeBack(stacks, refund, 1), left, pots, sc, button);
    }
  }

  lemma SameRefund(live: seq<int>, dropped: int)
    requires dropped >= 0 && !exists chips :: IsUncalled(live, dropped, chips)
    ensures KeptRefund(live, dropped) == Uncalled(live)
  {
    if Uncalled(live).Some? { UncalledSound(live); }
  }

  // ------------------------------------------------- as the code loops

  function Zeros(n: nat): (z: seq<int>)
    ensures |z| == n && forall i :: 0 <= i < n ==> z[i] == 0
  {
    seq(n, _ => 0)
  }

  method EqualShares(n: nat, eligible: seq<nat>, share: int) returns (payouts: seq<int>)
    requires Seats(eligible, n)
    ensures payouts == PayEach(Zeros(n), eligible, share)
  {
    payouts := Zeros(n);
    for k := 0 to |eligible|
      invariant payouts == PayEach(Zeros(n), eligible[..k], share)
    {
      assert eligible[..k + 1][..k] == eligible[..k];
      payouts := payouts[eligible[k] := payouts[eligible[k]] + share];
    }
    assert eligible[..|eligible|] == eligible;
  }

  /** One pot's payouts: equal shares, then the odd chips one by one from the button. */
  method PotPayouts(n: nat, eligible: seq<nat>, amount: int, button: nat) returns (payouts: seq<int>)
    requires Winners(eligible, n) && button < n
    ensures payouts == Share(Zeros(n), eligible, amount, button)
  {
    var share, rem := amount / |eligible|, amount % |eligible|;
    payouts := EqualShares(n, eligible, share);
    var j: nat := button;
    while rem > 0
      invariant j < n && |payouts| == n && rem >= 0
      invariant OddChips(payouts, eligible, j, rem) == Share(Zeros(n), eligible, amount, button)
      decreases rem, Steps(j, eligible[0], n)
    {
      j := NextSeat(j, n);
      if j in eligible {
        payouts := payouts[j := payouts[j] + 1];
        rem := rem - 1;
      }
    }
  }

  lemma ShareAdds(stacks: seq<int>, eligible: seq<nat>, amount: int, button: nat, i: nat)
    requires Winners(eligible, |stacks|) && button < |stacks| && i < |stacks|
    ensures Share(stacks, eligible, amount, button)[i]
              == stacks[i] + (if i in eligible then Share(Zeros(|stacks|), eligible, amount, button)[i] else 0)
  {
    ShareIsFair(stacks, eligible, amount, button, i);
    ShareIsFair(Zeros(|stacks|), eligible, amount, button, i);
  }

  /** One pot: work out the payouts, then add them to the stacks. */
  method PayPot(stacks: seq<int>, eligible: seq<nat>, amount: int, button: nat) returns (after: seq<int>)
    requires Winners(eligible, |stacks|) && button < |stacks|
    ensures after == Share(stacks, eligible, amount, button)
  {
    var payouts := PotPayouts(|stacks|, eligible, amount, button);
    after := stacks;
    for k := 0 to |eligible|
      invariant |after| == |stacks|
      invariant forall i :: 0 <= i < |stacks| ==> after[i] == stacks[i] + (if i in eligible[..k] then payouts[i] else 0)
    {
      assert eligible[..k + 1] == eligible[..k] + [eligible[k]];
      assert eligible[k] !in eligible[..k];
      after := after[eligible[k] := after[eligible[k]] + payouts[eligible[k]]];
    }
    assert eligible[..|eligible|] == eligible;
    forall i | 0 <= i < |stacks| ensures after[i] == Share(stacks, eligible, amount, button)[i] {
      ShareAdds(stacks, eligible, amount, button, i);
    }
  }

  method PayPots(stacks: seq<int>, pots: seq<Pot>, button: nat) returns (after: seq<int>)
    requires button < |stacks| && forall k :: 0 <= k < |pots| ==> Winners(pots[k].eligible, |stacks|)
    ensures after == SharePots(stacks, pots, button)
  {
    after := stacks;
    for k := 0 to |pots|
      invariant after == SharePots(stacks, pots[..k], button)
    {
      assert pots[..k + 1][..k] == pots[..k];
      after := PayPot(after, pots[k].eligible, pots[k].amount, button);
    }
    assert pots[..|pots|] == pots;
  }

  method PayForfeit(stacks: seq<int>, live: seq<int>, dead: seq<int>, left: seq<nat>, dropped: int, button: nat)
    returns (r: Payout)
    requires InHand(stacks, live, dead, left, button)
    ensures r == ForfeitChips(stacks, live, dead, left, dropped, button)
  {
    hide Uncalled, PotLayers, SharePots, Sum;
    var after, live' := stacks, live;
    var refund: Option<Refund> := None;
    RefundFits(live);
    var back := Uncalled(live);
    if back.Some? && back.value.seat != dropped {
      refund := back;
      live' := live'[back.value.seat := live'[back.value.seat] - back.value.chips];
      after := after[back.value.seat := after[back.value.seat] + back.value.chips];
    }
    KeptRefundFits(live, dropped);
    var pots := ComputePots(live', dead, left);
    PotsShareable(live', dead, left, pots);
    after := PayPots(after, pots, button);
    r := Payout(after, refund, pots);
  }

  /** `settle_forfeit`, as the code goes through it. */
  method SettleForfeit(stacks: seq<int>, live: seq<int>, dead: seq<int>, inHand: seq<int>, dropped: int, button: int)
    returns (r: Outcome<Payout>)
    ensures r == Forfeit(stacks, live, dead, inHand, dropped, button)
  {
    if !WellFormed(stacks, live, dead, inHand, dropped, button) {
      return Refused;
    }
    var left := Left(inHand, dropped, |stacks|);
    if |left| == 0 {
      return Refused;
    }
    var paid := PayForfeit(stacks, live, dead, left, dropped, button);
    r := Ok(paid);
  }
}
