/** Running the board out and settling a hand (`settle`, `peek_runout` in holdem/engine.py). */
module Settling {
  import opened Sums
  import opened Evaluator
  import opened HandScoring
  import opened Pots
  import opened Settlement
  import opened Awards
  import opened Game
  import opened Betting
  import opened Dealing

  // ---------------------------------------------------- the board

  /** Sizes the deals rely on. */
  predicate Runnable(g: Game) {
    g.street != Idle && |g.board| == BoardSize(g.street) && |g.deck| >= 5 - |g.board| && g.button < |g.players|
  }

  /** `while len(self.board) < 5: self.next_street()`. */
  function RunOut(g: Game): (r: Game)
    requires Runnable(g)
    decreases 5 - |g.board|
  {
    if |g.board| >= 5 then g else RunOut(NextStreet(g))
  }

  /** The second board of run-it-twice comes right below the first. */
  function RunTwice(g: Game): (r: Game)
    requires |g.board| <= 5 && |g.deck| >= 2 * (5 - |g.board|)
  {
    var need := 5 - |g.board|;
    var rest := g.deck[..|g.deck| - need];
    g.(board := g.board + TopCards(g.deck, need), board2 := Some(g.board + TopCards(rest, need)),
       deck := rest[..|rest| - need])
  }

  /** `peek_runout`'s loop. */
  function Peek(cards: seq<Card>, need: nat, take: nat): (r: seq<Card>)
    requires 0 < take && take <= |cards| && need <= |cards| && (need > 0 ==> take <= need)
    decreases need
  {
    if need == 0 then []
    else
      var rest := cards[..|cards| - take];
      TopCards(cards, take) + (if need == take then [] else Peek(rest, need - take, 1))
  }

  function PeekRunout(g: Game): (r: seq<Card>)
    requires Runnable(g)
  {
    var need := 5 - |g.board|;
    if need == 0 then [] else Peek(g.deck, need, if |g.board| == 0 then 3 else 1)
  }

  /** What a run-out leaves alone. */
  predicate RanOut(g: Game, r: Game) {
    && r.cfg == g.cfg && r.button == g.button && r.handNo == g.handNo && r.sbSeat == g.sbSeat && r.bbSeat == g.bbSeat
    && r.board2 == g.board2 && |r.players| == |g.players|
    && forall i :: 0 <= i < |g.players| ==> r.players[i] == g.players[i].(bet := r.players[i].bet)
  }

  lemma StreetStep(g: Game)
    requires Runnable(g) && |g.board| < 5
    ensures var h, k := NextStreet(g), DealCount(g.street);
            && 0 < k <= 5 - |g.board| && k == (if |g.board| == 0 then 3 else 1)
            && h.board == g.board + TopCards(g.deck, k) && h.deck == g.deck[..|g.deck| - k]
            && Runnable(h) && RanOut(g, h)
  {
  }

  lemma PeekStep(g: Game)
    requires Runnable(g) && |g.board| < 5
    ensures PeekRunout(g) == TopCards(g.deck, DealCount(g.street)) + PeekRunout(NextStreet(g))
  {
    StreetStep(g);
  }

  lemma {:induction false} RunOutFrame(g: Game)
    requires Runnable(g)
    ensures RanOut(g, RunOut(g))
    decreases 5 - |g.board|
  {
    if |g.board| < 5 {
      StreetStep(g);
      RunOutFrame(NextStreet(g));
    }
  }

  lemma {:induction false} RunOutDeck(g: Game)
    requires Runnable(g)
    ensures |RunOut(g).board| == 5
    ensures RunOut(g).deck == g.deck[..|g.deck| - (5 - |g.board|)]
    decreases 5 - |g.board|
  {
    if |g.board| < 5 {
      StreetStep(g);
      RunOutDeck(NextStreet(g));
    }
  }

  lemma {:induction false} RunOutShown(g: Game)
    requires Runnable(g)
    ensures RunOut(g).board == g.board + PeekRunout(g)
    decreases 5 - |g.board|
  {
    hide NextStreet, Peek;
    if |g.board| < 5 {
      StreetStep(g);
      PeekStep(g);
      RunOutShown(NextStreet(g));
      assert (g.board + TopCards(g.deck, DealCount(g.street))) + PeekRunout(NextStreet(g))
          == g.board + (TopCards(g.deck, DealCount(g.street)) + PeekRunout(NextStreet(g)));
    }
  }

  /** Running once appends exactly the cards `peek_runout` shows, in order, and takes them off the deck. */
  lemma RunOutBoard(g: Game)
    requires Runnable(g)
    ensures RunOut(g).board == g.board + PeekRunout(g)
    ensures |RunOut(g).board| == 5
    ensures RunOut(g).deck == g.deck[..|g.deck| - (5 - |g.board|)]
    ensures RanOut(g, RunOut(g))
  {
    RunOutShown(g);
    RunOutDeck(g);
    RunOutFrame(g);
  }

  /** What the loop still has to show. */
  function PeekRest(cards: seq<Card>, need: nat, take: nat): (r: seq<Card>)
    requires need <= |cards| && (need > 0 ==> 0 < take <= need)
  {
    if need == 0 then [] else Peek(cards, need, take)
  }

  lemma PeekTurn(cards: seq<Card>, need: nat, take: nat)
    requires 0 < take <= need <= |cards|
    ensures PeekRest(cards, need, take) == cards[|cards| - take..] + PeekRest(cards[..|cards| - take], need - take, 1)
  {
  }

  lemma Regrouped(a: seq<Card>, b: seq<Card>, c: seq<Card>)
    ensures a + (b + c) == (a + b) + c
  {
  }

  /** `peek_runout`'s loop, as the code runs it. */
  method PeekFrom(deck: seq<Card>, toCome: nat, firstTake: nat) returns (out: seq<Card>)
    requires 0 < firstTake <= toCome <= |deck|
    ensures out == Peek(deck, toCome, firstTake)
  {
    hide Peek;
    out := [];
    var cards, need, take := deck, toCome, firstTake;
    while need > 0
      invariant 0 <= need <= |cards| && (need > 0 ==> 0 < take <= need)
      invariant Peek(deck, toCome, firstTake) == out + PeekRest(cards, need, take)
    {
      PeekTurn(cards, need, take);
      var dealt := cards[|cards| - take..];
      Regrouped(out, dealt, PeekRest(cards[..|cards| - take], need - take, 1));
      out := out + dealt;
      cards := cards[..|cards| - take];
      need := need - take;
      take := 1;
      if need <= 0 {
        break;
      }
    }
  }

  method ComputePeek(g: Game) returns (out: seq<Card>)
    requires Runnable(g)
    ensures out == PeekRunout(g)
  {
    var need := 5 - |g.board|;
    if need <= 0 {
      return [];
    }
    out := PeekFrom(g.deck, need, if |g.board| == 0 then 3 else 1);
  }

  /** Run 1 of run-it-twice has the same five cards as running once. */
  lemma RunOneSameCards(g: Game)
    requires Runnable(g) && |g.deck| >= 2 * (5 - |g.board|)
    ensures multiset(RunTwice(g).board) == multiset(RunOut(g).board)
    ensures CardSet(RunTwice(g).board) == CardSet(RunOut(g).board)
  {
    RunOutBoard(g);
    var need := 5 - |g.board|;
    var once, twice := RunOut(g), RunTwice(g);
    RunOutCards(g);
    TopCardsMove(g.deck, g.board, need);
    Cancel(multiset(once.deck), multiset(once.board), multiset(twice.board));
    forall c ensures c in CardSet(once.board) <==> c in CardSet(twice.board) {
      assert c in once.board <==> c in multiset(once.board);
      assert c in twice.board <==> c in multiset(twice.board);
    }
  }

  lemma Cancel(d: multiset<Card>, a: multiset<Card>, b: multiset<Card>)
    requires d + a == d + b
    ensures a == b
  {
    forall x ensures a[x] == b[x] {
      assert (d + a)[x] == (d + b)[x];
    }
  }

  lemma {:induction false} RunOutCards(g: Game)
    requires Runnable(g)
    ensures multiset(RunOut(g).deck) + multiset(RunOut(g).board) == multiset(g.deck) + multiset(g.board)
    decreases 5 - |g.board|
  {
    hide NextStreet;
    if |g.board| < 5 {
      StreetStep(g);
      RunOutCards(NextStreet(g));
      TopCardsMove(g.deck, g.board, DealCount(g.street));
    }
  }

  // -------------------------------------------------- hands to compare

  lemma TwiceIn(cards: seq<Card>, i: nat, j: nat)
    requires i < j < |cards|
    ensures cards[i] == cards[j] ==> multiset(cards)[cards[j]] >= 2
  {
    assert cards == cards[..j] + [cards[j]] + cards[j + 1..];
    assert cards[i] in cards[..j];
  }

  lemma OnceEach(cards: seq<Card>)
    requires forall c :: multiset(cards)[c] <= 1
    ensures Distinct(cards)
  {
    forall i, j | 0 <= i < j < |cards| ensures cards[i] != cards[j] {
      TwiceIn(cards, i, j);
    }
  }

  lemma {:induction false} HoleWithin(ps: seq<Player>, i: nat)
    requires i < |ps|
    ensures multiset(ps[i].hole) <= HoleCards(ps)
  {
    if i < |ps| - 1 { HoleWithin(ps[..|ps| - 1], i); }
  }

  /** Two hole cards and three to five board cards from the same deck are a hand the evaluator takes. */
  lemma HandReady(g: Game, i: nat, board: seq<Card>)
    requires CardsOk(g) && i < |g.players| && g.players[i].inSeat
    requires 3 <= |board| <= 5 && multiset(board) <= multiset(g.deck) + multiset(g.board)
    ensures Dealt(g.players[i].hole + board) && Hand(CardSet(g.players[i].hole + board))
  {
    var cards := g.players[i].hole + board;
    HoleWithin(g.players, i);
    assert multiset(cards) <= CardsOf(g);
    OnceEach(cards);
    forall c | c in cards ensures ValidCard(c) {
      assert c in multiset(cards);
    }
    CardSetSize(cards);
  }

  // ------------------------------------------------------- settle

  function Alive(ps: seq<Player>): (r: seq<nat>)
    ensures forall i :: i in r <==> i in ContestedSeats(ps)
    ensures Different(r) && Seats(r, |ps|)
  {
    InOrder(ContestedSeats(ps), |ps|)
  }

  /** Step 1: the uncalled bet goes back to its owner. */
  function RefundPlayer(p: Player, chips: int): (r: Player) {
    p.(totalLive := p.totalLive - chips, stack := p.stack + chips, allIn := p.stack + chips == 0)
  }

  function Refunded(g: Game): (r: Game)
    ensures |r.players| == |g.players|
  {
    match Uncalled(Lives(g.players))
    case None => g
    case Some(refund) =>
      g.(players := g.players[refund.seat := RefundPlayer(g.players[refund.seat], refund.chips)])
  }

  /** Step 2: complete the board, once or twice, if more than one seat is left. */
  function BoardDone(g: Game, twice: bool): (r: Game)
    requires Runnable(g) && |g.deck| >= 2 * (5 - |g.board|)
    ensures |r.players| == |g.players|
  {
    RunOutBoard(g);
    if |ContestedSeats(g.players)| <= 1 then g
    else if twice && |g.board| < 5 then RunTwice(g)
    else RunOut(g).(street := Showdown)
  }

  /** Step 3: the score of every seat left, on one board. */
  function BoardScores(ps: seq<Player>, alive: seq<nat>, board: seq<Card>): (sc: Scores)
    requires Seats(alive, |ps|) && forall i :: i in alive ==> i < |ps| && Hand(CardSet(ps[i].hole + board))
    ensures Scored(alive, sc)
  {
    map i | i in alive :: Evaluate(CardSet(ps[i].hole + board))
  }

  /** The boards that are scored. */
  function Boards(g: Game): (r: seq<seq<Card>>) {
    if g.board2.Some? then [g.board, g.board2.value] else [g.board]
  }

  ghost predicate Comparable(g: Game, alive: seq<nat>) {
    Seats(alive, |g.players|) && forall b, i :: b in Boards(g) && i in alive ==>
      i < |g.players| && Hand(CardSet(g.players[i].hole + b))
  }

  function RunsOf(g: Game, alive: seq<nat>): (runs: seq<Scores>)
    requires |alive| > 1 ==> Comparable(g, alive)
    ensures RunsScored(alive, runs)
  {
    if |alive| <= 1 then []
    else
      assert g.board in Boards(g);
      var first := BoardScores(g.players, alive, g.board);
      if g.board2.None? then [first]
      else
        assert g.board2.value in Boards(g);
        [first, BoardScores(g.players, alive, g.board2.value)]
  }

  /** The players once the chips are paid and the table is cleared. */
  function Paid(ps: seq<Player>, paid: seq<int>): (r: seq<Player>)
    requires |ps| == |paid|
    ensures |r| == |ps|
    ensures forall i :: 0 <= i < |r| ==>
              r[i] == ps[i].(stack := paid[i], won := ps[i].won + paid[i] - ps[i].stack, bet := 0, totalLive := 0, totalDead := 0)
  {
    seq(|ps|, i requires 0 <= i < |ps| =>
      ps[i].(stack := paid[i], won := ps[i].won + paid[i] - ps[i].stack, bet := 0, totalLive := 0, totalDead := 0))
  }

  /** A hand that can be settled: sound seats and cards, and somebody left in it. */
  ghost predicate Settleable(g: Game) {
    && SeatsOk(g.players) && g.button < |g.players| && CardsOk(g)
    && ContestedSeats(g.players) != {} && g.board2.None?
  }

  lemma RefundedFacts(g: Game)
    requires Settleable(g)
    ensures var r := Refunded(g);
            && Lives(r.players) == TakeBack(Lives(g.players), Uncalled(Lives(g.players)), -1)
            && Stacks(r.players) == TakeBack(Stacks(g.players), Uncalled(Lives(g.players)), 1)
            && Deads(r.players) == Deads(g.players)
            && ContestedSeats(r.players) == ContestedSeats(g.players)
            && SameCards(g, r) && CardsOk(r) && r == g.(players := r.players)
  {
    hide Refunded, CardsOf;
    RefundedChips(g);
    SameCardsOf(g, Refunded(g));
  }

  lemma RefundedChips(g: Game)
    requires Nonneg(Lives(g.players))
    ensures var r := Refunded(g);
            && Lives(r.players) == TakeBack(Lives(g.players), Uncalled(Lives(g.players)), -1)
            && Stacks(r.players) == TakeBack(Stacks(g.players), Uncalled(Lives(g.players)), 1)
            && Deads(r.players) == Deads(g.players)
            && ContestedSeats(r.players) == ContestedSeats(g.players)
            && SameCards(g, r) && r == g.(players := r.players)
            && forall i :: 0 <= i < |g.players| ==> r.players[i].inSeat == g.players[i].inSeat
  {
    hide Uncalled;
    RefundFits(Lives(g.players));
  }

  lemma Part(a: multiset<Card>, b: multiset<Card>, whole: multiset<Card>)
    requires a + b == whole
    ensures a <= whole && b <= whole
  {
  }

  lemma BoardWithin(deck: seq<Card>, board: seq<Card>, k: nat)
    requires k <= |deck|
    ensures multiset(board + TopCards(deck, k)) <= multiset(deck) + multiset(board)
    ensures multiset(deck[..|deck| - k]) <= multiset(deck)
  {
    TopCardsMove(deck, board, k);
    Part(multiset(deck[..|deck| - k]), multiset(board + TopCards(deck, k)), multiset(deck) + multiset(board));
    assert deck == deck[..|deck| - k] + TopCards(deck, k);
  }

  lemma Below(a: multiset<Card>, b: multiset<Card>, c: multiset<Card>, d: multiset<Card>)
    requires a <= b + c && b <= d
    ensures a <= d + c
  {
  }

  lemma SecondBoardWithin(deck: seq<Card>, rest: seq<Card>, board: seq<Card>, k: nat)
    requires k <= |deck| && rest == deck[..|deck| - k] && k <= |rest|
    ensures multiset(board + TopCards(rest, k)) <= multiset(deck) + multiset(board)
  {
    BoardWithin(deck, board, k);
    BoardWithin(rest, board, k);
    Below(multiset(board + TopCards(rest, k)), multiset(rest), multiset(board), multiset(deck));
  }

  lemma RunTwiceCards(g: Game, b1: seq<Card>, b2: seq<Card>)
    requires |g.board| <= 5 && |g.deck| >= 2 * (5 - |g.board|)
    requires b1 == RunTwice(g).board && b2 == RunTwice(g).board2.value
    ensures multiset(b1) <= multiset(g.deck) + multiset(g.board)
    ensures multiset(b2) <= multiset(g.deck) + multiset(g.board)
  {
    var deck, board, need := g.deck, g.board, 5 - |g.board|;
    var rest := deck[..|deck| - need];
    assert b1 == board + TopCards(deck, need) && b2 == board + TopCards(rest, need);
    BoardWithin(deck, board, need);
    SecondBoardWithin(deck, rest, board, need);
  }

  lemma BoardDoneCards(g: Game, twice: bool, b: seq<Card>)
    requires Runnable(g) && |g.deck| >= 2 * (5 - |g.board|) && g.board2.None?
    requires |ContestedSeats(g.players)| > 1 && b in Boards(BoardDone(g, twice))
    ensures |b| == 5 && multiset(b) <= multiset(g.deck) + multiset(g.board)
  {
    if twice && |g.board| < 5 {
      RunTwiceCards(g, RunTwice(g).board, RunTwice(g).board2.value);
    } else {
      RunOutBoard(g);
      RunOutCards(g);
      Part(multiset(RunOut(g).deck), multiset(RunOut(g).board), multiset(g.deck) + multiset(g.board));
    }
  }

  lemma BoardDoneComparable(g: Game, twice: bool)
    requires CardsOk(g) && g.button < |g.players| && g.board2.None?
    ensures |Alive(g.players)| > 1 ==> Comparable(BoardDone(g, twice), Alive(g.players))
  {
    var alive, d := Alive(g.players), BoardDone(g, twice);
    RunOutBoard(g);
    if |alive| > 1 {
      AliveCount(g.players);
      forall b, i | b in Boards(d) && i in alive ensures i < |d.players| && Hand(CardSet(d.players[i].hole + b)) {
        BoardDoneCards(g, twice, b);
        HandReady(g, i, b);
      }
    }
  }

  lemma AliveCount(ps: seq<Player>)
    ensures |Alive(ps)| == |ContestedSeats(ps)|
  {
    SeatCount(Alive(ps));
    assert SeatSet(Alive(ps)) == ContestedSeats(ps);
  }

  datatype Settled = Settled(game: Game, payout: Payout)

  /** `settle`: refund, board, scores, pots and award; then the table is idle. */
  function Settle(g: Game, twice: bool): (r: Settled)
    requires Settleable(g)
  {
    var g1 := Refunded(g);
    RefundedFacts(g);
    var g2 := BoardDone(g1, twice);
    var alive := Alive(g.players);
    SettleReady(g, twice);
    var payout := SettleChips(Stacks(g.players), Lives(g.players), Deads(g.players), alive, RunsOf(g2, alive), g.button);
    Settled(g2.(players := Paid(g2.players, payout.stacks), street := Idle), payout)
  }

  lemma SettleReady(g: Game, twice: bool)
    requires Settleable(g)
    ensures var g1, alive := Refunded(g), Alive(g.players);
            && Runnable(g1) && |g1.deck| >= 2 * (5 - |g1.board|)
            && InHand(Stacks(g.players), Lives(g.players), Deads(g.players), alive, g.button)
            && (|alive| > 1 ==> Comparable(BoardDone(g1, twice), alive))
  {
    RefundedFacts(g);
    AliveCount(g.players);
    BoardDoneComparable(Refunded(g), twice);
  }

  /** The chips of a settlement: all of them, none negative, none for a seat that was not in the hand. */
  lemma PayoutFacts(g: Game, runs: seq<Scores>)
    requires Settleable(g) && RunsScored(Alive(g.players), runs)
    requires InHand(Stacks(g.players), Lives(g.players), Deads(g.players), Alive(g.players), g.button)
    ensures var paid := SettleChips(Stacks(g.players), Lives(g.players), Deads(g.players), Alive(g.players), runs, g.button).stacks;
            && Sum(paid) == ChipsOf(g.players)
            && forall i: nat :: i < |g.players| ==> paid[i] >= 0 && (!g.players[i].inSeat ==> paid[i] == 0)
  {
    hide SettleChips, CardsOk, RunsScored, Uncalled;
    var stacks, lives, deads, alive := Stacks(g.players), Lives(g.players), Deads(g.players), Alive(g.players);
    SettleConserves(stacks, lives, deads, alive, runs, g.button);
    forall i: nat | i < |g.players|
      ensures BackTo(lives, i) >= 0
      ensures !g.players[i].inSeat ==> SettleChips(stacks, lives, deads, alive, runs, g.button).stacks[i] == 0
    {
      BackNonneg(lives, i);
      if !g.players[i].inSeat { SettleOutsider(stacks, lives, deads, alive, runs, g.button, i); }
    }
  }

  predicate SameSetting(g: Game, r: Game) {
    |r.players| == |g.players| && r.cfg == g.cfg && r.handNo == g.handNo && PositionsOf(r) == PositionsOf(g)
  }

  lemma BoardDoneSetting(g: Game, twice: bool)
    requires Runnable(g) && |g.deck| >= 2 * (5 - |g.board|)
    ensures SameSetting(g, BoardDone(g, twice))
  {
    RunOutFrame(g);
  }

  lemma SettleIs(g: Game, twice: bool)
    requires Settleable(g)
    ensures var s := Settle(g, twice);
            && SameSetting(g, s.game) && |s.payout.stacks| == |g.players|
            && forall i: nat :: i < |g.players| ==>
                 s.game.players[i].stack == s.payout.stacks[i] && s.game.players[i].totalLive == 0
                 && s.game.players[i].totalDead == 0
  {
    hide CardsOk, RunsOf, SettleChips, Uncalled;
    RefundedFacts(g);
    SettleReady(g, twice);
    BoardDoneSetting(Refunded(g), twice);
  }

  lemma SettlePays(g: Game, twice: bool)
    requires Settleable(g)
    ensures var paid := Settle(g, twice).payout.stacks;
            && |paid| == |g.players| && Sum(paid) == ChipsOf(g.players)
            && forall i: nat :: i < |g.players| ==> paid[i] >= 0 && (!g.players[i].inSeat ==> paid[i] == 0)
  {
    SettleReady(g, twice);
    PayoutFacts(g, RunsOf(BoardDone(Refunded(g), twice), Alive(g.players)));
  }

  /** Settling leaves an idle table holding every chip of the hand; who was not in it wins nothing. */
  lemma SettleOk(g: Game, twice: bool)
    requires Settleable(g) && ConfigOk(g.cfg) && |g.players| >= 2
    requires g.bbSeat.Some? ==> g.bbSeat.value < |g.players| && g.sbSeat.Some? && g.sbSeat.value < |g.players|
    ensures var r := Settle(g, twice).game;
            && IdleOk(r) && r.cfg == g.cfg && |r.players| == |g.players| && r.handNo == g.handNo
            && PositionsOf(r) == PositionsOf(g)
            && Sum(Stacks(r.players)) == ChipsOf(g.players)
            && forall i: nat :: i < |g.players| && !g.players[i].inSeat ==> r.players[i].stack == 0
  {
    hide Settle, ChipsOf, CardsOk;
    SettleIs(g, twice);
    SettlePays(g, twice);
    var s := Settle(g, twice);
    assert Stacks(s.game.players) == s.payout.stacks;
  }

  lemma BackNonneg(live: seq<int>, i: nat)
    requires Nonneg(live) && i < |live|
    ensures BackTo(live, i) >= 0
    ensures live[i] == 0 ==> BackTo(live, i) == 0
  {
    if Uncalled(live).Some? { UncalledSound(live); }
  }

  lemma SameScores(ps: seq<Player>, qs: seq<Player>, alive: seq<nat>, b: seq<Card>, c: seq<Card>)
    requires |ps| == |qs| && Seats(alive, |ps|) && CardSet(b) == CardSet(c)
    requires forall i :: i in alive ==> i < |ps| && ps[i].hole == qs[i].hole
    requires forall i :: i in alive ==> Hand(CardSet(ps[i].hole + b))
    ensures forall i :: i in alive ==> Hand(CardSet(qs[i].hole + c))
    ensures BoardScores(ps, alive, b) == BoardScores(qs, alive, c)
  {
    forall i | i in alive ensures CardSet(ps[i].hole + b) == CardSet(qs[i].hole + c) {
      SetOfBoth(ps[i].hole, b);
      SetOfBoth(qs[i].hole, c);
    }
  }

  /** Run 1 of run-it-twice scores every seat as running once does. */
  lemma RunOneSameScores(g: Game)
    requires Settleable(g) && |Alive(g.players)| > 1
    ensures var g1, alive := Refunded(g), Alive(g.players);
            && Runnable(g1) && |g1.deck| >= 2 * (5 - |g1.board|)
            && Comparable(BoardDone(g1, true), alive) && Comparable(BoardDone(g1, false), alive)
            && RunsOf(BoardDone(g1, true), alive)[0] == RunsOf(BoardDone(g1, false), alive)[0]
  {
    hide Refunded, Alive, Settleable, Hand, CardSet, SeatsOk;
    var g1, alive := Refunded(g), Alive(g.players);
    SettleReady(g, true);
    SettleReady(g, false);
    RefundedFacts(g);
    AliveCount(g.players);
    var once, twice := BoardDone(g1, false), BoardDone(g1, true);
    assert twice.board in Boards(twice);
    if |g1.board| < 5 {
      RunOneSameCards(g1);
      RunOutFrame(g1);
      SameScores(twice.players, once.players, alive, twice.board, once.board);
    }
  }

  lemma SetOfBoth(a: seq<Card>, b: seq<Card>)
    ensures CardSet(a + b) == CardSet(a) + CardSet(b)
  {
  }
}
