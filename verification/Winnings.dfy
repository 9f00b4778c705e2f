/** What settlement pays each seat, to the chip, by the hands that are shown (holdem/engine.py). */
module Winnings {
  import opened Evaluator
  import opened HandScoring
  import opened Pots
  import opened Settlement
  import opened Awards
  import opened Game
  import opened Dealing
  import opened Settling

  // ---------------------------------------------- a pot among its winners

  /** What seat `i` gets of `amount` chips the seats `W` share: an equal part, and one odd chip for each of the first seats
      left of the button while odd chips last. */
  ghost function FairShare(W: set<nat>, amount: int, button: nat, n: nat, i: nat): (t: int)
    requires button < n && i < n && forall w :: w in W ==> w < n
  {
    if i !in W then 0
    else
      var ahead := set w | w in W && Steps(button, w, n) < Steps(button, i, n);
      amount / |W| + (if |ahead| < amount % |W| then 1 else 0)
  }

  lemma SharePays(chips: seq<int>, winners: seq<nat>, amount: int, button: nat, W: set<nat>, i: nat)
    requires Winners(winners, |chips|) && button < |chips| && i < |chips| && forall w :: w in W <==> w in winners
    ensures forall w :: w in W ==> w < |chips|
    ensures Share(chips, winners, amount, button)[i] == chips[i] + FairShare(W, amount, button, |chips|, i)
  {
    ShareIsFair(chips, winners, amount, button, i);
    SeatCount(winners);
    assert SeatSet(winners) == W;
    var n := |chips|;
    assert (set w | w in winners && Steps(button, w, n) < Steps(button, i, n))
        == (set w | w in W && Steps(button, w, n) < Steps(button, i, n));
  }

  /** The eligible seats no eligible seat outscores. */
  ghost function BestSeats(eligible: seq<nat>, sc: Scores): (W: set<nat>)
    requires Scored(eligible, sc)
  {
    set i | i in eligible && forall j :: j in eligible ==> ScoreLe(sc[j], sc[i])
  }

  /** Who shares a pot in run `r`: the last seat left, or the best of the eligible seats. */
  ghost function Sharers(alive: seq<nat>, eligible: seq<nat>, runs: seq<Scores>, r: nat): (W: set<nat>)
    requires |alive| == 1 || (r < |runs| && Scored(eligible, runs[r]))
  {
    if |alive| == 1 then {alive[0]} else BestSeats(eligible, runs[r])
  }

  lemma SharersAre(alive: seq<nat>, pot: Pot, runs: seq<Scores>, r: nat, n: nat)
    requires Awardable(pot, n, alive, runs) && |alive| > 0 && (|alive| > 1 ==> r < |runs|)
    ensures |alive| == 1 || (r < |runs| && |pot.eligible| > 0 && Scored(pot.eligible, runs[r]))
    ensures Winners(RunWinners(alive, pot.eligible, runs, r), n)
    ensures forall w :: w in Sharers(alive, pot.eligible, runs, r) <==> w in RunWinners(alive, pot.eligible, runs, r)
  {
    RunWinnersFit(alive, pot, runs, r, n);
    if |alive| > 1 { WinnersAreBest(pot.eligible, runs[r]); }
  }

  // --------------------------------------------------- all pots and runs

  /** What seat `i` gets of one pot in its first `r` runs: the pot is split evenly, the chips left over go to run 1. */
  ghost function PotGain(alive: seq<nat>, pot: Pot, runs: seq<Scores>, button: nat, n: nat, r: nat, i: nat): (t: int)
    requires Awardable(pot, n, alive, runs) && |alive| > 0 && (|alive| > 1 ==> |runs| > 0) && button < n && i < n
    requires r <= RunCount(alive, runs)
  {
    if r == 0 then 0
    else
      SharersAre(alive, pot, runs, r - 1, n);
      var count := if |alive| > 1 then |runs| else 1;
      var amount := pot.amount / count + (if r == 1 then pot.amount % count else 0);
      PotGain(alive, pot, runs, button, n, r - 1, i)
      + FairShare(Sharers(alive, pot.eligible, runs, r - 1), amount, button, n, i)
  }

  lemma RunAmountIs(amount: int, count: nat, r: nat)
    requires count > 0
    ensures RunAmount(amount, count, r) == amount / count + (if r == 0 then amount % count else 0)
  {
    DivMod(amount, count);
  }

  lemma {:induction false} RunsPay(chips: seq<int>, alive: seq<nat>, pot: Pot, runs: seq<Scores>, button: nat, r: nat, i: nat)
    requires Awardable(pot, |chips|, alive, runs) && |alive| > 0 && (|alive| > 1 ==> |runs| > 0) && button < |chips|
    requires r <= RunCount(alive, runs) && i < |chips|
    ensures AwardRuns(chips, alive, pot, runs, button, r)[i] == chips[i] + PotGain(alive, pot, runs, button, |chips|, r, i)
  {
    hide Share, RunWinners, Sharers, FairShare, Awardable, RunAmount;
    if r > 0 {
      RunsPay(chips, alive, pot, runs, button, r - 1, i);
      SharersAre(alive, pot, runs, r - 1, |chips|);
      RunAmountIs(pot.amount, RunCount(alive, runs), r - 1);
      var before := AwardRuns(chips, alive, pot, runs, button, r - 1);
      SharePays(before, RunWinners(alive, pot.eligible, runs, r - 1), RunAmount(pot.amount, RunCount(alive, runs), r - 1),
                button, Sharers(alive, pot.eligible, runs, r - 1), i);
    }
  }

  /** What seat `i` gets of all pots. */
  ghost function Gain(alive: seq<nat>, pots: seq<Pot>, runs: seq<Scores>, button: nat, n: nat, i: nat): (t: int)
    requires AllAwardable(pots, n, alive, runs) && |alive| > 0 && (|alive| > 1 ==> |runs| > 0) && button < n && i < n
  {
    if |pots| == 0 then 0
    else
      var k := |pots| - 1;
      Gain(alive, pots[..k], runs, button, n, i)
      + PotGain(alive, pots[k], runs, button, n, if |alive| > 1 then |runs| else 1, i)
  }

  lemma {:induction false} PotsPay(chips: seq<int>, alive: seq<nat>, pots: seq<Pot>, runs: seq<Scores>, button: nat, i: nat)
    requires AllAwardable(pots, |chips|, alive, runs) && |alive| > 0 && (|alive| > 1 ==> |runs| > 0) && button < |chips|
    requires i < |chips|
    ensures AwardPots(chips, alive, pots, runs, button)[i] == chips[i] + Gain(alive, pots, runs, button, |chips|, i)
  {
    hide Awardable, PotGain, AwardRuns;
    if |pots| > 0 {
      var k := |pots| - 1;
      PotsPay(chips, alive, pots[..k], runs, button, i);
      RunsPay(AwardPots(chips, alive, pots[..k], runs, button), alive, pots[k], runs, button, RunCount(alive, runs), i);
    }
  }

  /** The bets once an uncalled one is back with its owner. */
  function Called(live: seq<int>): (r: seq<int>)
    requires Nonneg(live)
    ensures |r| == |live| && Nonneg(r)
    ensures forall i :: 0 <= i < |live| ==> r[i] == live[i] - BackTo(live, i)
  {
    RefundFits(live);
    TakeBack(live, Uncalled(live), -1)
  }

  /** Settlement pays every seat its stack, its uncalled bet, and its share of each pot and run it is best in, exactly. */
  lemma SettlePaysBest(stacks: seq<int>, live: seq<int>, dead: seq<int>, alive: seq<nat>, runs: seq<Scores>, button: nat, i: nat)
    requires InHand(stacks, live, dead, alive, button) && RunsScored(alive, runs) && i < |stacks|
    ensures AllAwardable(PotLayers(Called(live), dead, alive), |stacks|, alive, runs)
    ensures SettleChips(stacks, live, dead, alive, runs, button).stacks[i]
         == stacks[i] + BackTo(live, i) + Gain(alive, PotLayers(Called(live), dead, alive), runs, button, |stacks|, i)
  {
    hide PotLayers, AllAwardable, AwardPots, Gain, Uncalled;
    RefundFits(live);
    var pots := PotLayers(Called(live), dead, alive);
    PotsAwardable(Called(live), dead, alive, runs, pots);
    PotsPay(TakeBack(stacks, Uncalled(live), 1), alive, pots, runs, button, i);
  }

  // --------------------------------------------------------- no best hand

  /** In every pot that lists seat `i` and every run, some eligible seat beats it. */
  ghost predicate Outscored(pots: seq<Pot>, runs: seq<Scores>, n: nat, alive: seq<nat>, i: nat)
    requires AllAwardable(pots, n, alive, runs) && |alive| > 1
  {
    forall k, r :: 0 <= k < |pots| && i in pots[k].eligible && 0 <= r < |runs| ==> BeatenIn(pots[k].eligible, runs[r], i)
  }

  ghost predicate BeatenIn(eligible: seq<nat>, sc: Scores, i: nat) {
    exists j :: j in eligible && j in sc && i in sc && !ScoreLe(sc[j], sc[i])
  }

  lemma {:induction false} BeatenGetsNone(alive: seq<nat>, pot: Pot, runs: seq<Scores>, button: nat, n: nat, r: nat, i: nat)
    requires Awardable(pot, n, alive, runs) && |alive| > 1 && |runs| > 0 && button < n && i < n && r <= |runs|
    requires i in pot.eligible ==> forall m :: 0 <= m < |runs| ==> BeatenIn(pot.eligible, runs[m], i)
    ensures PotGain(alive, pot, runs, button, n, r, i) == 0
  {
    hide Awardable;
    if r > 0 {
      BeatenGetsNone(alive, pot, runs, button, n, r - 1, i);
      SharersAre(alive, pot, runs, r - 1, n);
      assert i in pot.eligible ==> BeatenIn(pot.eligible, runs[r - 1], i);
      assert i !in Sharers(alive, pot.eligible, runs, r - 1);
    }
  }

  lemma {:induction false} OutscoredGainsNone(alive: seq<nat>, pots: seq<Pot>, runs: seq<Scores>, button: nat, n: nat, i: nat)
    requires AllAwardable(pots, n, alive, runs) && |alive| > 1 && |runs| > 0 && button < n && i < n && Outscored(pots, runs, n, alive, i)
    ensures Gain(alive, pots, runs, button, n, i) == 0
  {
    hide Awardable, BeatenIn, PotGain;
    if |pots| > 0 {
      var k := |pots| - 1;
      OutscoredGainsNone(alive, pots[..k], runs, button, n, i);
      BeatenGetsNone(alive, pots[k], runs, button, n, |runs|, i);
    }
  }

  /** A seat beaten in every pot and run gets its stack and its uncalled bet, and not a chip more. */
  lemma BeatenSeatWinsNothing(stacks: seq<int>, live: seq<int>, dead: seq<int>, alive: seq<nat>, runs: seq<Scores>, button: nat, i: nat)
    requires InHand(stacks, live, dead, alive, button) && RunsScored(alive, runs) && i < |stacks| && |alive| > 1
    requires AllAwardable(PotLayers(Called(live), dead, alive), |stacks|, alive, runs)
    requires Outscored(PotLayers(Called(live), dead, alive), runs, |stacks|, alive, i)
    ensures SettleChips(stacks, live, dead, alive, runs, button).stacks[i] == stacks[i] + BackTo(live, i)
  {
    hide PotLayers, AllAwardable, Gain, Outscored, SettleChips;
    SettlePaysBest(stacks, live, dead, alive, runs, button, i);
    OutscoredGainsNone(alive, PotLayers(Called(live), dead, alive), runs, button, |stacks|, i);
  }

  // ------------------------------------------------------ the whole hand

  /** The cards of one run to come, as the streets take them off the end of the deck. */
  function CardsToCome(deck: seq<Card>, dealt: nat): (r: seq<Card>)
    requires dealt in {0, 3, 4, 5} && |deck| >= 5 - dealt
  {
    var n := |deck|;
    if dealt == 0 then deck[n - 3..] + [deck[n - 4], deck[n - 5]]
    else if dealt == 3 then [deck[n - 1], deck[n - 2]]
    else if dealt == 4 then [deck[n - 1]]
    else []
  }

  lemma PeekOne(cards: seq<Card>, need: nat)
    requires 0 < need <= |cards|
    ensures Peek(cards, need, 1)
         == [cards[|cards| - 1]] + (if need == 1 then [] else Peek(cards[..|cards| - 1], need - 1, 1))
  {
  }

  lemma PeekTwo(cards: seq<Card>)
    requires |cards| >= 2
    ensures Peek(cards, 2, 1) == [cards[|cards| - 1], cards[|cards| - 2]]
  {
    hide Peek;
    var rest := cards[..|cards| - 1];
    PeekOne(cards, 2);
    PeekOne(rest, 1);
    assert rest[|rest| - 1] == cards[|cards| - 2];
  }

  lemma PeekFive(cards: seq<Card>)
    requires |cards| >= 5
    ensures Peek(cards, 5, 3) == cards[|cards| - 3..] + [cards[|cards| - 4], cards[|cards| - 5]]
  {
    var rest := cards[..|cards| - 3];
    PeekTwo(rest);
    assert rest[|rest| - 1] == cards[|cards| - 4] && rest[|rest| - 2] == cards[|cards| - 5];
  }

  lemma RunoutIs(g: Game)
    requires Runnable(g)
    ensures |g.board| in {0, 3, 4, 5} && PeekRunout(g) == CardsToCome(g.deck, |g.board|)
  {
    hide Peek;
    if |g.board| == 0 {
      PeekFive(g.deck);
    } else if |g.board| == 3 {
      PeekTwo(g.deck);
    } else if |g.board| == 4 {
      PeekOne(g.deck, 1);
    }
  }

  /** The boards a hand is decided on: none with one seat left, two of new cards each if it is run twice. */
  function RunBoards(g: Game, twice: bool): (r: seq<seq<Card>>)
    requires |g.board| in {0, 3, 4, 5} && |g.deck| >= 2 * (5 - |g.board|)
  {
    var n, need := |g.deck|, 5 - |g.board|;
    if |ContestedSeats(g.players)| <= 1 then []
    else if twice && need > 0 then [g.board + g.deck[n - need..], g.board + g.deck[n - 2 * need..n - need]]
    else [g.board + CardsToCome(g.deck, |g.board|)]
  }

  /** With a board every seat left has a hand to score. */
  ghost predicate HandsOn(g: Game, b: seq<Card>) {
    forall j :: j in Alive(g.players) ==> j < |g.players| && Hand(CardSet(g.players[j].hole + b))
  }

  ghost predicate AllHands(g: Game, boards: seq<seq<Card>>) {
    forall r :: 0 <= r < |boards| ==> HandsOn(g, boards[r])
  }

  /** Every seat's hand scored on a board. */
  ghost function HandScores(g: Game, b: seq<Card>): (sc: Scores)
    requires HandsOn(g, b)
  {
    map j | j in Alive(g.players) :: Evaluate(CardSet(g.players[j].hole + b))
  }

  ghost function AllScores(g: Game, boards: seq<seq<Card>>): (runs: seq<Scores>)
    requires AllHands(g, boards)
    ensures |runs| == |boards|
    ensures forall r :: 0 <= r < |boards| ==> runs[r] == HandScores(g, boards[r])
  {
    seq(|boards|, r requires 0 <= r < |boards| => HandScores(g, boards[r]))
  }

  lemma DoneBoards(g: Game, twice: bool)
    requires Settleable(g)
    ensures var g1 := Refunded(g);
            && Runnable(g1) && |g1.deck| >= 2 * (5 - |g1.board|) && |g.board| in {0, 3, 4, 5} && |g.deck| >= 2 * (5 - |g.board|)
            && var g2 := BoardDone(g1, twice);
               && |g2.players| == |g.players| && (forall j :: 0 <= j < |g.players| ==> g2.players[j].hole == g.players[j].hole)
               && (|ContestedSeats(g.players)| > 1 ==> Boards(g2) == RunBoards(g, twice))
  {
    hide CardsOf, Uncalled, RunOut, Peek;
    var g1 := Refunded(g);
    RefundedFacts(g);
    SettleReady(g, twice);
    RunOutBoard(g1);
    RunoutIs(g1);
    OnceOrTwice(g1, twice);
  }

  lemma OnceOrTwice(g: Game, twice: bool)
    requires Runnable(g) && |g.deck| >= 2 * (5 - |g.board|) && g.board2.None? && |g.board| in {0, 3, 4, 5}
    requires RunOut(g).board == g.board + CardsToCome(g.deck, |g.board|) && RanOut(g, RunOut(g))
    ensures |ContestedSeats(g.players)| > 1 ==> Boards(BoardDone(g, twice)) == RunBoards(g, twice)
    ensures forall j :: 0 <= j < |g.players| ==> BoardDone(g, twice).players[j].hole == g.players[j].hole
  {
    hide RunOut, CardsToCome;
    var n, need := |g.deck|, 5 - |g.board|;
    assert TopCards(g.deck[..n - need], need) == g.deck[n - 2 * need..n - need];
  }

  /** A finished board scores the seats as the hands do. */
  lemma SameHandScores(g: Game, g2: Game, b: seq<Card>)
    requires |g2.players| == |g.players| && forall j :: 0 <= j < |g.players| ==> g2.players[j].hole == g.players[j].hole
    requires Comparable(g2, Alive(g.players)) && b in Boards(g2)
    ensures HandsOn(g, b) && BoardScores(g2.players, Alive(g.players), b) == HandScores(g, b)
  {
    hide Hand, CardSet, Alive;
    assert forall j :: j in Alive(g.players) ==> Hand(CardSet(g2.players[j].hole + b));
  }

  lemma DoneRuns(g: Game, twice: bool)
    requires Settleable(g) && |ContestedSeats(g.players)| > 1
    ensures |g.board| in {0, 3, 4, 5} && |g.deck| >= 2 * (5 - |g.board|) && AllHands(g, RunBoards(g, twice))
    ensures var g1, alive := Refunded(g), Alive(g.players);
            && Runnable(g1) && |g1.deck| >= 2 * (5 - |g1.board|) && Comparable(BoardDone(g1, twice), alive) && |alive| > 1
            && RunsOf(BoardDone(g1, twice), alive) == AllScores(g, RunBoards(g, twice))
  {
    hide Settleable, Refunded, BoardDone, RunBoards, HandsOn, HandScores, BoardScores, Alive, Comparable;
    DoneBoards(g, twice);
    SettleReady(g, twice);
    var g2 := BoardDone(Refunded(g), twice);
    AliveCount(g.players);
    forall b | b in Boards(g2) ensures HandsOn(g, b) && BoardScores(g2.players, Alive(g.players), b) == HandScores(g, b) {
      SameHandScores(g, g2, b);
    }
    assert g2.board in Boards(g2);
  }

  /** What seat `i` wins: of every pot and run it is best in by its two cards and that run's board, its share. */
  ghost function HandGain(g: Game, twice: bool, i: nat): (t: int)
    requires Settleable(g) && i < |g.players|
  {
    var live, dead, alive := Lives(g.players), Deads(g.players), Alive(g.players);
    GainReady(g, twice);
    Gain(alive, PotLayers(Called(live), dead, alive), AllScores(g, RunBoards(g, twice)), g.button, |g.players|, i)
  }

  lemma GainReady(g: Game, twice: bool)
    requires Settleable(g)
    ensures |g.board| in {0, 3, 4, 5} && |g.deck| >= 2 * (5 - |g.board|) && AllHands(g, RunBoards(g, twice))
    ensures Nonneg(Lives(g.players)) && |Alive(g.players)| > 0 && g.button < |g.players|
    ensures |Alive(g.players)| > 1 ==> |RunBoards(g, twice)| > 0
    ensures InHand(Stacks(g.players), Lives(g.players), Deads(g.players), Alive(g.players), g.button)
    ensures RunsScored(Alive(g.players), AllScores(g, RunBoards(g, twice)))
    ensures AllAwardable(PotLayers(Called(Lives(g.players)), Deads(g.players), Alive(g.players)), |g.players|, Alive(g.players),
                         AllScores(g, RunBoards(g, twice)))
  {
    hide Settleable, PotLayers, AllAwardable, Hand;
    DoneBoards(g, twice);
    SettleReady(g, twice);
    AliveCount(g.players);
    if |ContestedSeats(g.players)| > 1 { DoneRuns(g, twice); }
    var live, dead, alive := Lives(g.players), Deads(g.players), Alive(g.players);
    PotsAwardable(Called(live), dead, alive, AllScores(g, RunBoards(g, twice)), PotLayers(Called(live), dead, alive));
  }

  /** Main result: `settle` leaves every seat its stack, its uncalled bet and what it wins, to the chip; only what it wins
      counts as won. */
  lemma SettlePaysHands(g: Game, twice: bool, i: nat)
    requires Settleable(g) && i < |g.players|
    ensures var r := Settle(g, twice).game;
            && |r.players| == |g.players|
            && r.players[i].stack == g.players[i].stack + BackTo(Lives(g.players), i) + HandGain(g, twice, i)
            && r.players[i].won == g.players[i].won + HandGain(g, twice, i)
  {
    hide Settleable, PotLayers, AllAwardable, Gain, SettleChips, RunsOf, BoardDone, RunBoards, Uncalled;
    var live, dead, alive := Lives(g.players), Deads(g.players), Alive(g.players);
    GainReady(g, twice);
    SettledRuns(g, twice);
    SettlePaysBest(Stacks(g.players), live, dead, alive, AllScores(g, RunBoards(g, twice)), g.button, i);
    SettledPlayer(g, twice, i);
  }

  lemma SettledRuns(g: Game, twice: bool)
    requires Settleable(g)
    ensures |g.board| in {0, 3, 4, 5} && |g.deck| >= 2 * (5 - |g.board|) && AllHands(g, RunBoards(g, twice))
    ensures InHand(Stacks(g.players), Lives(g.players), Deads(g.players), Alive(g.players), g.button)
    ensures RunsScored(Alive(g.players), AllScores(g, RunBoards(g, twice)))
    ensures Settle(g, twice).payout
         == SettleChips(Stacks(g.players), Lives(g.players), Deads(g.players), Alive(g.players), AllScores(g, RunBoards(g, twice)), g.button)
  {
    hide SettleChips, BoardDone, Uncalled, Refunded;
    GainReady(g, twice);
    SettleReady(g, twice);
    AliveCount(g.players);
    if |ContestedSeats(g.players)| > 1 { DoneRuns(g, twice); }
  }

  lemma SettledPlayer(g: Game, twice: bool, i: nat)
    requires Settleable(g) && i < |g.players|
    ensures var s := Settle(g, twice);
            && |s.game.players| == |g.players| == |s.payout.stacks|
            && s.game.players[i].stack == s.payout.stacks[i]
            && s.game.players[i].won == g.players[i].won + s.payout.stacks[i] - g.players[i].stack - BackTo(Lives(g.players), i)
  {
    hide SettleChips, RunsOf, Uncalled, CardsOk;
    RefundedFacts(g);
    SettleReady(g, twice);
    DonePlayer(g, twice, i);
  }

  lemma DonePlayer(g: Game, twice: bool, i: nat)
    requires Settleable(g) && i < |g.players|
    ensures var g1 := Refunded(g);
            && Runnable(g1) && |g1.deck| >= 2 * (5 - |g1.board|)
            && var p := BoardDone(g1, twice).players[i];
               p.won == g.players[i].won && p.stack == g.players[i].stack + BackTo(Lives(g.players), i)
  {
    hide Uncalled, CardsOk;
    RefundedFacts(g);
    SettleReady(g, twice);
    RunOutFrame(Refunded(g));
    RefundFits(Lives(g.players));
  }

  /** A seat whose hand is beaten, on every board, in every pot that lists it, wins nothing. */
  lemma BeatenHandWinsNothing(g: Game, twice: bool, i: nat)
    requires Settleable(g) && i < |g.players| && |Alive(g.players)| > 1
    requires |g.board| in {0, 3, 4, 5} && |g.deck| >= 2 * (5 - |g.board|)
    requires var pots := PotLayers(Called(Lives(g.players)), Deads(g.players), Alive(g.players));
             forall b, k :: b in RunBoards(g, twice) && 0 <= k < |pots| && i in pots[k].eligible ==> BeatenOn(g, pots[k].eligible, b, i)
    ensures var r := Settle(g, twice).game;
            |r.players| == |g.players| && r.players[i].stack == g.players[i].stack + BackTo(Lives(g.players), i)
            && r.players[i].won == g.players[i].won
  {
    hide Settleable, PotLayers, AllAwardable, Gain, BeatenOn, RunBoards;
    GainReady(g, twice);
    var alive, boards := Alive(g.players), RunBoards(g, twice);
    var pots, runs := PotLayers(Called(Lives(g.players)), Deads(g.players), alive), AllScores(g, boards);
    forall k, r | 0 <= k < |pots| && i in pots[k].eligible && 0 <= r < |runs| ensures BeatenIn(pots[k].eligible, runs[r], i) {
      assert boards[r] in boards;
      BeatenScores(g, pots[k].eligible, boards[r], i);
    }
    OutscoredGainsNone(alive, pots, runs, g.button, |g.players|, i);
    SettlePaysHands(g, twice, i);
  }

  /** Some eligible seat left in the hand has a better hand than seat `i` on this board. */
  ghost predicate BeatenOn(g: Game, eligible: seq<nat>, b: seq<Card>, i: nat) {
    exists j :: j in eligible && j in Alive(g.players) && i in Alive(g.players)
      && Hand(CardSet(g.players[j].hole + b)) && Hand(CardSet(g.players[i].hole + b))
      && !ScoreLe(Evaluate(CardSet(g.players[j].hole + b)), Evaluate(CardSet(g.players[i].hole + b)))
  }

  lemma BeatenScores(g: Game, eligible: seq<nat>, b: seq<Card>, i: nat)
    requires HandsOn(g, b) && BeatenOn(g, eligible, b, i)
    ensures BeatenIn(eligible, HandScores(g, b), i)
  {
    hide Hand, Evaluate, ScoreLe;
  }

  // -------------------------------------------------------------- forfeit

  lemma SeatsBelow(s: seq<nat>, n: nat)
    requires Seats(s, n)
    ensures forall w :: w in SeatSet(s) ==> w < n
  {
  }

  /** What seat `i` gets of all pots when the seats left in each share it. */
  ghost function EvenGain(pots: seq<Pot>, button: nat, n: nat, i: nat): (t: int)
    requires button < n && i < n && forall k :: 0 <= k < |pots| ==> Winners(pots[k].eligible, n)
  {
    if |pots| == 0 then 0
    else
      var k := |pots| - 1;
      assert Winners(pots[k].eligible, n);
      SeatsBelow(pots[k].eligible, n);
      EvenGain(pots[..k], button, n, i) + FairShare(SeatSet(pots[k].eligible), pots[k].amount, button, n, i)
  }

  lemma {:induction false} PotsShared(chips: seq<int>, pots: seq<Pot>, button: nat, i: nat)
    requires button < |chips| && i < |chips| && forall k :: 0 <= k < |pots| ==> Winners(pots[k].eligible, |chips|)
    ensures SharePots(chips, pots, button)[i] == chips[i] + EvenGain(pots, button, |chips|, i)
  {
    hide Share, FairShare;
    if |pots| > 0 {
      var k := |pots| - 1;
      PotsShared(chips, pots[..k], button, i);
      SharePays(SharePots(chips, pots[..k], button), pots[k].eligible, pots[k].amount, button, SeatSet(pots[k].eligible), i);
    }
  }

  /** An uncalled bet that goes back to seat `i`; the dropper's does not. */
  function KeptBack(live: seq<int>, dropped: int, i: int): (chips: int) {
    if i == dropped then 0 else BackTo(live, i)
  }

  function Kept(live: seq<int>, dropped: int): (r: seq<int>)
    ensures |r| == |live| && forall i :: 0 <= i < |live| ==> r[i] == live[i] - KeptBack(live, dropped, i)
  {
    seq(|live|, i requires 0 <= i < |live| => live[i] - KeptBack(live, dropped, i))
  }

  /** A forfeit pays every seat its stack, its uncalled bet unless it dropped, and its even share, to the chip, of each pot
      it has matched among the seats left. */
  lemma ForfeitPays(stacks: seq<int>, live: seq<int>, dead: seq<int>, inHand: seq<int>, dropped: int, button: int, i: nat)
    requires Forfeit(stacks, live, dead, inHand, dropped, button).Ok? && i < |stacks|
    ensures 0 <= button < |stacks| == |live|
    ensures var pots := PotLayers(Kept(live, dropped), dead, Left(inHand, dropped, |stacks|));
            && (forall k :: 0 <= k < |pots| ==> Winners(pots[k].eligible, |stacks|))
            && Forfeit(stacks, live, dead, inHand, dropped, button).value.stacks[i]
               == stacks[i] + KeptBack(live, dropped, i) + EvenGain(pots, button, |stacks|, i)
  {
    hide PotLayers, SharePots, EvenGain, Uncalled;
    var left := Left(inHand, dropped, |stacks|);
    KeptRefundFits(live, dropped);
    var refund := KeptRefund(live, dropped);
    assert TakeBack(live, refund, -1) == Kept(live, dropped);
    var pots := PotLayers(Kept(live, dropped), dead, left);
    PotsShareable(Kept(live, dropped), dead, left, pots);
    PotsShared(TakeBack(stacks, refund, 1), pots, button, i);
  }
}
