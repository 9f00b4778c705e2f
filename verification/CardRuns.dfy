/** Where the cards are, from the deal to the settled hand (holdem/engine.py, holdem/embedding.py). */
module CardRuns {
  import opened Evaluator
  import opened Awards
  import opened Game
  import opened Betting
  import opened Dealing
  import opened Settling
  import opened Table

  // ------------------------------------------------------- settlement

  /** All cards, counting those of a second board from position `from` on, where it leaves the first. */
  ghost function AllCards(g: Game, from: nat): (m: multiset<Card>)
    requires g.board2.Some? ==> from <= |g.board2.value|
  {
    CardsOf(g) + (if g.board2.Some? then multiset(g.board2.value[from..]) else multiset{})
  }

  /** Running twice deals two runs off the deck: every card is in the deck, on the first board or new on the second. */
  lemma RunTwiceKeepsCards(g: Game)
    requires |g.board| <= 5 && |g.deck| >= 2 * (5 - |g.board|)
    ensures var r := RunTwice(g);
            && r.board2.Some? && |r.board| == |r.board2.value| == 5
            && r.board[..|g.board|] == r.board2.value[..|g.board|] == g.board
            && multiset(r.deck) + multiset(r.board) + multiset(r.board2.value[|g.board|..]) == multiset(g.deck) + multiset(g.board)
  {
    hide TopCards;
    RunTwiceBoards(g);
    var need := 5 - |g.board|;
    var rest := g.deck[..|g.deck| - need];
    TwoRuns(g.deck, g.board, rest, RunTwice(g).deck, need);
  }

  lemma RunTwiceBoards(g: Game)
    requires |g.board| <= 5 && |g.deck| >= 2 * (5 - |g.board|)
    ensures var r, need := RunTwice(g), 5 - |g.board|;
            && r.board2.Some? && |r.board| == |r.board2.value| == 5
            && r.board[..|g.board|] == r.board2.value[..|g.board|] == g.board
            && r.board == g.board + TopCards(g.deck, need)
            && r.board2.value[|g.board|..] == TopCards(g.deck[..|g.deck| - need], need)
  {
  }

  lemma TwoRuns(deck: seq<Card>, board: seq<Card>, rest: seq<Card>, left: seq<Card>, k: nat)
    requires 2 * k <= |deck| && rest == deck[..|deck| - k] && left == rest[..|rest| - k]
    ensures multiset(left) + multiset(board + TopCards(deck, k)) + multiset(TopCards(rest, k)) == multiset(deck) + multiset(board)
  {
    TopCardsMove(deck, board, k);
    assert rest == left + TopCards(rest, k);
    Swap(multiset(left), multiset(TopCards(rest, k)), multiset(board + TopCards(deck, k)));
  }

  lemma Swap(a: multiset<Card>, b: multiset<Card>, c: multiset<Card>)
    ensures a + b + c == a + c + b
  {
  }

  lemma HolesStay(g: Game, twice: bool)
    requires Runnable(g) && |g.deck| >= 2 * (5 - |g.board|)
    ensures HoleCards(BoardDone(g, twice).players) == HoleCards(g.players)
  {
    RunOutFrame(g);
    SameHoles(BoardDone(g, twice).players, g.players);
  }

  lemma BoardDoneKeepsCards(g: Game, twice: bool)
    requires Runnable(g) && |g.deck| >= 2 * (5 - |g.board|) && g.board2.None?
    ensures var r := BoardDone(g, twice);
            (r.board2.Some? ==> |g.board| <= |r.board2.value|) && AllCards(r, |g.board|) == CardsOf(g)
  {
    hide HoleCards, RunOut, RunTwice;
    HolesStay(g, twice);
    RunOutCards(g);
    RunOutFrame(g);
    RunTwiceKeepsCards(g);
    var r := BoardDone(g, twice);
    if r.board2.Some? {
      Swap(multiset(r.deck) + multiset(r.board), HoleCards(r.players), multiset(r.board2.value[|g.board|..]));
    }
  }

  /** Settling, with one run or two, loses and doubles no card. */
  lemma SettleKeepsCards(g: Game, twice: bool)
    requires Settleable(g)
    ensures var r := Settle(g, twice).game;
            (r.board2.Some? ==> |g.board| <= |r.board2.value|) && AllCards(r, |g.board|) == CardsOf(g)
  {
    hide CardsOk, BoardDone, Refunded, HoleCards, SettleChips, RunsOf;
    RefundedFacts(g);
    SettleReady(g, twice);
    SameCardsOf(g, Refunded(g));
    BoardDoneKeepsCards(Refunded(g), twice);
    var g2 := BoardDone(Refunded(g), twice);
    SettledHoles(g, twice);
  }

  lemma SettledHoles(g: Game, twice: bool)
    requires Settleable(g)
    ensures Runnable(Refunded(g)) && |Refunded(g).deck| >= 2 * (5 - |Refunded(g).board|)
    ensures var r, g2 := Settle(g, twice).game, BoardDone(Refunded(g), twice);
            r.deck == g2.deck && r.board == g2.board && r.board2 == g2.board2 && HoleCards(r.players) == HoleCards(g2.players)
  {
    hide CardsOk, BoardDone, Refunded, SettleChips, RunsOf;
    RefundedFacts(g);
    SettleReady(g, twice);
    SameHoles(Settle(g, twice).game.players, BoardDone(Refunded(g), twice).players);
  }

  lemma SettleOnce(g: Game)
    requires Settleable(g)
    ensures Settle(g, false).game.board2.None? && CardsOf(Settle(g, false).game) == CardsOf(g)
  {
    hide CardsOk, Settle, CardsOf;
    SettleKeepsCards(g, false);
    SettledHoles(g, false);
    OnceNoSecond(g);
  }

  lemma OnceNoSecond(g: Game)
    requires Settleable(g)
    ensures Runnable(Refunded(g)) && |Refunded(g).deck| >= 2 * (5 - |Refunded(g).board|)
    ensures BoardDone(Refunded(g), false).board2.None?
  {
    hide CardsOk, RunOut;
    RefundedFacts(g);
    SettleReady(g, false);
    RunOutFrame(Refunded(g));
  }

  // ---------------------------------------------------- a hand at a table

  lemma {:induction false} ReachedCards(g: Game)
    requires HandOk(g)
    ensures CardsOf(Reached(g)) == CardsOf(g)
    decreases StreetsLeft(g.street)
  {
    hide BetsOk, RoundOk, NextStreet, Settle, AdvanceHand, CardsOf;
    AdvanceTurn(g);
    if !Ends(g) && g.actor.None? {
      NextStreetKeepsCards(g);
      ReachedCards(NextStreet(g));
    }
  }

  lemma AdvanceCards(t: Table)
    requires HandOk(t.game)
    ensures AdvanceTable(t).Done? ==> CardsOf(AdvanceTable(t).table.game) == CardsOf(t.game)
  {
    hide HandOk, Reached, Settle, Settleable, AdvanceHand, CardsOf, Ends;
    AdvanceReaches(t.game);
    ReachedCards(t.game);
    SettleOnce(Reached(t.game));
  }

  lemma CommandCards(t: Table, who: string, c: Command)
    requires TableOk(t) && CommandCall(t, who, c).Done?
    ensures CardsOf(CommandCall(t, who, c).table.game) == CardsOf(t.game)
  {
    hide CommandCall, RoundOk, Act, AdvanceTable, BetsOk, CardsOk, CardsOf;
    CommandIs(t, who, c);
    var i, a := t.game.actor.value, ActionOf(c);
    ActKeepsCards(t.game, i, a);
    AdvanceCards(t.(game := Act(t.game, i, a).value));
  }

  predicate NoNewHand(steps: seq<Step>) {
    forall k :: 0 <= k < |steps| ==> !steps[k].StartHandStep?
  }

  lemma {:induction false} RunCards(t: Table, steps: seq<Step>)
    requires TableOk(t) && NoNewHand(steps)
    ensures StepsOk(steps) && CardsOf(Run(t, steps).game) == CardsOf(t.game)
    decreases |steps|
  {
    hide TableOk, CommandCall, CardsOf;
    if |steps| > 0 {
      var s := steps[0];
      ApplyKeeps(t, s);
      if s.CommandStep? && CommandCall(t, s.who, s.command).Done? { CommandCards(t, s.who, s.command); }
      RunCards(After(t, s), steps[1..]);
    }
  }

  /** Main result: from the start of a hand through any calls until the next, in every state and the settled one too, holes,
      board and deck together are exactly the deck it was dealt from. */
  lemma HandKeepsDeck(t: Table, deck: seq<Card>, steps: seq<Step>)
    requires TableOk(t) && FullDeck(deck) && StartHandCall(t, deck).Done? && NoNewHand(steps)
    ensures TableOk(StartHandCall(t, deck).table) && StepsOk(steps)
    ensures CardsOf(Run(StartHandCall(t, deck).table, steps).game) == multiset(deck)
  {
    hide StartHandCall, HandOk, StartHand, AdvanceTable, CardsOf, Run, IdleOk, FullDeck;
    StartHandKeeps(t, deck);
    StartIs(t, deck);
    DealtFrom(t.game, deck);
    AdvanceCards(WithGame(t, StartHand(t.game, deck)));
    RunCards(StartHandCall(t, deck).table, steps);
  }

  lemma DealtFrom(g: Game, deck: seq<Card>)
    requires FullDeck(deck) && |g.players| <= 9
    ensures IdleOk(g) && Startable(g) ==> |deck| >= 2 * |g.players| && CardsOf(StartHand(g, deck)) == multiset(deck)
  {
    if IdleOk(g) && Startable(g) { StartKeepsCards(g, deck); }
  }
}
