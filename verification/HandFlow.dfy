/** When a hand waits, deals a street or is settled (`_advance` in holdem/embedding.py), over every run of a table. */
module HandFlow {
  import opened Evaluator
  import opened Settlement
  import opened Awards
  import opened Game
  import opened Betting
  import opened Dealing
  import opened Settling
  import opened Table
  import opened Winnings
  import opened Turns

  // -------------------------------------------------------- a new street

  /** A new street starts without bets and shows its board; if it asks anybody, it asks first the nearest seat able to act,
      walking on from the button. */
  lemma StreetOpens(g: Game)
    requires HandOk(g) && g.street != Showdown && g.street != River
    ensures var r := NextStreet(g);
            && r.street == StreetAfter(g.street) && r.button == g.button && |r.players| == |g.players|
            && r.currentBet == 0 && r.minRaise == g.cfg.bb && r.raises == 0 && r.riverAggr == g.riverAggr
            && (forall j :: 0 <= j < |g.players| ==> r.players[j] == g.players[j].(bet := 0))
            && g.board < r.board && r.events == g.events + [BoardDealt(r.street, r.board)]
            && (if |Movers(g.players)| >= 2 then r.actor.Some? && r.need == Movers(r.players) == Movers(g.players) else r.actor.None?)
            && (r.actor.Some? ==> NextAfter(Movers(r.players), g.button, r.actor.value, |r.players|))
  {
    hide RoundOk, SeatOk, CardsOf;
    var d := DealStreet(g);
    var dealt := d.(events := g.events + [BoardDealt(d.street, d.board)]);
    ClearBetsChips(g.players);
    OpensAfter(dealt);
    ButtonSeat(g);
    if |Movers(g.players)| >= 2 { FullyOpened(dealt); }
  }

  lemma ButtonSeat(g: Game)
    requires HandOk(g)
    ensures g.button < |g.players|
  {
  }

  lemma OpensAfter(g: Game)
    requires g.button < |g.players|
    ensures var r, n := OpenRound(g, NextSeat(g.button, |g.players|)), |g.players|;
            r.actor.Some? ==> NextAfter(Movers(g.players), g.button, r.actor.value, n)
  {
    var n := |g.players|;
    var r := OpenRound(g, NextSeat(g.button, n));
    if r.actor.Some? {
      SeekSound(r.need, NextSeat(g.button, n), n, n);
      assert r.need == Movers(g.players);
      NextInFinds(r.need, g.button, n);
    }
  }

  lemma FullyOpened(g: Game)
    requires g.button < |g.players| && |Movers(g.players)| >= 2
    ensures var r := OpenRound(g, NextSeat(g.button, |g.players|)); r.actor.Some? && r.need == Movers(g.players)
  {
    var n := |g.players|;
    var s :| s in Movers(g.players);
    NextInFinds(Movers(g.players), g.button, n);
  }

  // --------------------------------------------------- wait, deal or settle

  /** The hand is over: one seat left, or a round is closed and either the river was played or at most one seat can bet. */
  predicate Over(g: Game) {
    || |ContestedSeats(g.players)| <= 1
    || g.street == Showdown
    || (g.actor.None? && (g.street == River || |Movers(g.players)| <= 1))
  }

  /** Main result: `_advance` settles a hand exactly if it is over. Otherwise it leaves it to the seat to act, or, the round
      being closed, deals one street and leaves it to the first able seat left of the button. */
  lemma AdvanceExactly(g: Game)
    requires HandOk(g)
    ensures AdvanceHand(g).Finished? <==> Over(g)
    ensures !Over(g) && g.actor.Some? ==> AdvanceHand(g) == Waiting(g)
    ensures !Over(g) && g.actor.None? ==>
              && DealCount(g.street) <= |g.deck| && g.button < |g.players|
              && AdvanceHand(g) == Waiting(NextStreet(g))
              && NextStreet(g).street == StreetAfter(g.street) && NextStreet(g).actor.Some? && |NextStreet(g).players| == |g.players|
              && NextAfter(Movers(g.players), g.button, NextStreet(g).actor.value, |g.players|)
  {
    hide HandOk, AdvanceHand, NextStreet, Settle, Settleable, ContestedSeats, Movers, NextAfter;
    AdvanceTurn(g);
    InPlayNow(g);
    if !Ends(g) && g.actor.None? {
      AdvanceTurn(NextStreet(g));
      if g.street == River {
        RiverEnds(g);
      } else {
        StreetOpens(g);
        SameContested(g);
      }
    }
  }

  lemma InPlayNow(g: Game)
    requires HandOk(g)
    ensures g.street != Idle && g.button < |g.players|
  {
  }

  lemma RiverEnds(g: Game)
    requires g.street == River && DealCount(g.street) <= |g.deck| && g.button < |g.players|
    ensures NextStreet(g).street == Showdown
  {
  }

  lemma SameContested(g: Game)
    requires DealCount(g.street) <= |g.deck| && g.button < |g.players|
    ensures ContestedSeats(NextStreet(g).players) == ContestedSeats(g.players)
    ensures Movers(NextStreet(g).players) == Movers(g.players) && |NextStreet(g).players| == |g.players|
  {
    ClearBetsChips(g.players);
  }

  // ----------------------------------------------------- a command's effect

  /** The game after the accepted move of the seat to act, before the table moves on. */
  ghost function Moved(t: Table, who: string, c: Command): (r: Game)
    requires TableOk(t) && CommandCall(t, who, c).Done?
    ensures HandOk(r) && RoundOk(r) && r.street == t.game.street && |r.players| == |t.game.players| && r.button == t.game.button
    ensures t.phase == InHand && t.game.actor.Some? && Act(t.game, t.game.actor.value, ActionOf(c)) == Ok(r)
    ensures CommandCall(t, who, c) == AdvanceTable(t.(game := r))
  {
    CommandIs(t, who, c);
    MovedOk(t, ActionOf(c));
    Act(t.game, t.game.actor.value, ActionOf(c)).value
  }

  lemma MovedOk(t: Table, a: Action)
    requires TableOk(t) && t.phase == InHand && t.game.actor.Some? && Act(t.game, t.game.actor.value, a).Ok?
    ensures var r := Act(t.game, t.game.actor.value, a).value;
            RoundOk(r) && r.street == t.game.street && |r.players| == |t.game.players| && r.button == t.game.button
  {
    hide Act, BetsOk, TurnsOk, ActedOk, ReopenOk, CardsOk;
    ActKeepsRound(t.game, t.game.actor.value, a);
    ActMoves(t.game, t.game.actor.value, a);
  }

  /** Where the table is left with a hand `g`. */
  ghost predicate LedTo(g: Game, u: Table) {
    && (u.phase == Between <==> Over(g)) && (u.phase == InHand <==> !Over(g))
    && (!Over(g) && g.actor.Some? ==> u.game == g)
    && (!Over(g) && g.actor.None? ==>
          && u.game.street == StreetAfter(g.street) && u.game.actor.Some? && |u.game.players| == |g.players|
          && NextAfter(Movers(g.players), g.button, u.game.actor.value, |g.players|))
  }

  lemma TableLeads(t: Table)
    requires HandOk(t.game) && t.phase == InHand && AdvanceTable(t).Done?
    ensures LedTo(t.game, AdvanceTable(t).table)
  {
    hide HandOk, AdvanceHand, NextAfter, Over, NextStreet, Movers;
    AdvanceExactly(t.game);
  }

  /** Main result: where a command leaves the hand. It is settled exactly if it is over; else the turn is with the next
      seat asked, walking on from the seat that moved, or, the round being closed, one street is dealt and the turn is with
      the first able seat left of the button. */
  lemma CommandLeads(t: Table, who: string, c: Command)
    requires TableOk(t) && CommandCall(t, who, c).Done?
    ensures var r, n := Moved(t, who, c), |t.game.players|;
            && LedTo(r, CommandCall(t, who, c).table)
            && (r.actor.None? <==> r.need == {})
            && (r.actor.Some? ==> NextAfter(r.need, t.game.actor.value, r.actor.value, n))
  {
    hide CommandCall, HandOk, AdvanceTable, RoundOk, NextAfter, LedTo, TableOk, Act;
    var r := Moved(t, who, c);
    TableLeads(t.(game := r));
    MoverRound(t);
    NextActor(t.game, t.game.actor.value, ActionOf(c));
  }

  /** A started hand is led on in the same way. */
  lemma StartLeads(t: Table, deck: seq<Card>)
    requires TableOk(t) && FullDeck(deck) && StartHandCall(t, deck).Done?
    ensures Startable(t.game) && |deck| >= 2 * |t.game.players|
    ensures LedTo(StartHand(t.game, deck), StartHandCall(t, deck).table)
  {
    hide HandOk, AdvanceTable, LedTo, StartHand, StartHandCall;
    StartIs(t, deck);
    TableLeads(WithGame(t, StartHand(t.game, deck)));
  }

  lemma MoverRound(t: Table)
    requires TableOk(t) && t.phase == InHand
    ensures RoundOk(t.game)
  {
  }

  /** A closed round: nobody is asked, and every seat able to act has acted in it and bet the current bet. */
  ghost predicate Closed(g: Game) {
    g.need == {} && forall j: nat :: j < |g.players| && CanAct(g.players[j]) ==> g.players[j].bet == g.currentBet && j in g.actedAt
  }

  /** Over any run of a table a hand with two seats left is settled by a command only once its round is closed, and then
      only if the river was played or at most one seat can still bet. */
  lemma RunSettlesOnTime(ids: seq<string>, chips: seq<int>, cfg: Config, steps: seq<Step>, who: string, c: Command)
    requires Open(ids, chips, cfg).Done? && StepsOk(steps) && TableOk(Open(ids, chips, cfg).table)
    requires var t := Run(Open(ids, chips, cfg).table, steps);
             CommandCall(t, who, c).Done? && CommandCall(t, who, c).table.phase == Between
    ensures var r := Moved(Run(Open(ids, chips, cfg).table, steps), who, c);
            |ContestedSeats(r.players)| >= 2 ==> Closed(r) && (r.street == River || |Movers(r.players)| <= 1)
  {
    hide Run, CommandCall, HandOk, Open, TableOk, Closed;
    var t := Run(Open(ids, chips, cfg).table, steps);
    CommandLeads(t, who, c);
    MoveCloses(t, who, c);
  }

  lemma MoveCloses(t: Table, who: string, c: Command)
    requires TableOk(t) && CommandCall(t, who, c).Done?
    ensures var r := Moved(t, who, c); (r.actor.None? ==> Closed(r)) && r.street != Showdown
  {
    hide CommandCall, HandOk, BetsOk, ActedOk, ReopenOk, Act, CardsOk;
    var r := Moved(t, who, c);
    NotShown(t);
    RoundCloses(t.game, t.game.actor.value, ActionOf(c));
  }

  lemma NotShown(t: Table)
    requires TableOk(t) && t.phase == InHand
    ensures RoundOk(t.game) && t.game.street != Showdown
  {
  }

  // ----------------------------------------------------------- the result

  /** The state a hand is settled in: showdown after the river, otherwise as it stands. */
  ghost function Decided(g: Game): (h: Game)
    requires HandOk(g) && Over(g)
    ensures HandOk(h) && Settleable(h)
    ensures |h.players| == |g.players| && h.handNo == g.handNo
    ensures forall i :: 0 <= i < |g.players| ==> h.players[i] == g.players[i].(bet := h.players[i].bet)
  {
    DecidedOk(g);
    if Ends(g) then g else NextStreet(g)
  }

  lemma DecidedOk(g: Game)
    requires HandOk(g) && Over(g)
    ensures !Ends(g) ==> DealCount(g.street) <= |g.deck| && g.button < |g.players|
    ensures var h := if Ends(g) then g else NextStreet(g);
            && HandOk(h) && Settleable(h) && AdvanceHand(g) == Finished(Settle(h, false))
            && |h.players| == |g.players| && h.handNo == g.handNo
            && forall i :: 0 <= i < |g.players| ==> h.players[i] == g.players[i].(bet := h.players[i].bet)
  {
    hide HandOk, AdvanceHand, Settle, Settleable, ContestedSeats, Movers;
    AdvanceTurn(g);
    if !Ends(g) {
      RiverEnds(g);
      AdvanceTurn(NextStreet(g));
    }
  }

  /** Main result: the hand a command settles is recorded under its number, with the chips each seat began it with and
      those it is left, which are its stack after its last move, its uncalled bet and what its hand wins, to the chip. */
  lemma CommandPays(t: Table, who: string, c: Command, i: nat)
    requires TableOk(t) && CommandCall(t, who, c).Done? && CommandCall(t, who, c).table.phase == Between && i < |t.ids|
    ensures Over(Moved(t, who, c)) && i < |t.game.players|
    ensures var u, h := CommandCall(t, who, c).table, Decided(Moved(t, who, c));
            && |u.game.players| == |t.ids| == |h.players|
            && u.result == Some(HandResult(h.handNo, t.handInitial, Stacks(u.game.players)))
            && u.game.players[i].stack == h.players[i].stack + BackTo(Lives(h.players), i) + HandGain(h, false, i)
  {
    hide CommandCall, HandOk, AdvanceHand, Settle, Settleable, HandGain, Over, CardsOk, BetsOk, RoundOk, LedTo;
    CommandLeads(t, who, c);
    LedOver(Moved(t, who, c), CommandCall(t, who, c).table);
    DecidedOk(Moved(t, who, c));
    var h := Decided(Moved(t, who, c));
    SettlePaysHands(h, false, i);
    SettledNumber(h);
  }

  lemma LedOver(g: Game, u: Table)
    requires LedTo(g, u) && u.phase == Between
    ensures Over(g)
  {
  }

  lemma SettledNumber(g: Game)
    requires Settleable(g)
    ensures Settle(g, false).game.handNo == g.handNo
  {
    hide Settle, Settleable;
    SettleIs(g, false);
  }
}
