/** What a seat can lose in one Fixed-Limit hand, as the table records it (holdem/engine.py, holdem/embedding.py). */
module HandLoss {
  import opened Evaluator
  import opened Settlement
  import opened Awards
  import opened Game
  import opened Betting
  import opened Dealing
  import opened Settling
  import opened Table
  import opened Opening
  import opened FixedLimit

  // -------------------------------------------------- to the settlement

  /** At showdown nobody has bet. */
  predicate Flat(g: Game) {
    g.street == Showdown ==> g.currentBet <= 0
  }

  lemma StreetFlat(g: Game)
    requires DealCount(g.street) <= |g.deck| && g.button < |g.players|
    ensures NextStreet(g).currentBet == 0 && NextStreet(g).cfg == g.cfg && |NextStreet(g).players| == |g.players|
    ensures forall i :: 0 <= i < |g.players| ==>
              SameStake(NextStreet(g).players[i], g.players[i])
  {
  }

  predicate SameStake(p: Player, q: Player) {
    p.stack == q.stack && p.totalLive == q.totalLive && p.totalDead == q.totalDead
  }

  /** Dealing the streets nobody bets on moves no chip and keeps the limit. */
  lemma {:induction false} ReachedStakes(g: Game)
    requires HandOk(g)
    ensures var r := Reached(g);
            r.cfg == g.cfg && |r.players| == |g.players|
            && forall i :: 0 <= i < |g.players| ==> SameStake(r.players[i], g.players[i])
    decreases StreetsLeft(g.street)
  {
    hide HandOk, NextStreet, Settle, AdvanceHand;
    AdvanceTurn(g);
    if !Ends(g) && g.actor.None? {
      StreetFlat(g);
      ReachedStakes(NextStreet(g));
    }
  }

  lemma {:induction false} ReachedLimit(g: Game)
    requires HandOk(g) && LimitOk(g) && Flat(g)
    ensures LimitOk(Reached(g)) && Flat(Reached(g))
    decreases StreetsLeft(g.street)
  {
    hide HandOk, NextStreet, Settle, AdvanceHand, LimitOk;
    AdvanceTurn(g);
    if !Ends(g) && g.actor.None? {
      StreetKeepsLimit(g);
      StreetFlat(g);
      ReachedLimit(NextStreet(g));
    }
  }

  /** No seat's live chips exceed 25 big blinds, at showdown too. */
  lemma LiveBound(g: Game)
    requires HandOk(g) && LimitOk(g) && Flat(g)
    ensures forall i :: 0 <= i < |g.players| ==> g.players[i].totalLive <= 25 * g.cfg.bb
  {
    hide RoundOk, CardsOf, SeatOk;
    if g.street == Showdown {
      assert forall i :: 0 <= i < |g.players| ==> g.players[i].bet <= g.currentBet;
    } else {
      LimitBound(g);
    }
  }

  /** Settling takes nothing from a stack. */
  lemma SettleLeaves(g: Game)
    requires Settleable(g)
    ensures var r := Settle(g, false).game;
            |r.players| == |g.players| && forall i :: 0 <= i < |g.players| ==> r.players[i].stack >= g.players[i].stack
  {
    hide CardsOk, SettleChips, Uncalled;
    SettleIs(g, false);
    SettleReady(g, false);
    var runs := RunsOf(BoardDone(Refunded(g), false), Alive(g.players));
    SettleConserves(Stacks(g.players), Lives(g.players), Deads(g.players), Alive(g.players), runs, g.button);
    forall i: nat | i < |g.players| ensures BackTo(Lives(g.players), i) >= 0 {
      BackNonneg(Lives(g.players), i);
    }
  }

  // ------------------------------------------------- every run of a table

  function Ante(cfg: Config): (a: int) {
    if cfg.bbAnte then cfg.bb else 0
  }

  /** Every seat's chips are those it began the hand with, at most one ante of them dead. */
  predicate Tracked(g: Game, initial: seq<int>) {
    |initial| == |g.players| && forall i :: 0 <= i < |g.players| ==>
      initial[i] == PlayerChips(g.players[i]) && g.players[i].totalDead <= Ante(g.cfg)
  }

  /** No seat lost more than 25 big blinds and the ante. */
  predicate LossOk(r: HandResult, cfg: Config) {
    |r.finalChips| == |r.initialChips|
    && forall i :: 0 <= i < |r.initialChips| ==> r.initialChips[i] - r.finalChips[i] <= 25 * cfg.bb + Ante(cfg)
  }

  ghost predicate LossTable(t: Table, cfg: Config) {
    && t.game.cfg == cfg && |t.game.players| == |t.ids|
    && (t.result.Some? ==> |t.result.value.initialChips| == |t.ids|)
    && (t.phase == InHand ==> Tracked(t.game, t.handInitial) && (cfg.structure == FixedLimit ==> LimitOk(t.game)))
    && (t.result.Some? && cfg.structure == FixedLimit ==> LossOk(t.result.value, cfg))
  }

  /** The settled hand cost nobody more. */
  lemma SettledLoss(g: Game, initial: seq<int>)
    requires HandOk(g) && LimitOk(g) && Flat(g) && Tracked(g, initial) && Settleable(g)
    ensures LossOk(HandResult(Settle(g, false).game.handNo, initial, Stacks(Settle(g, false).game.players)), g.cfg)
  {
    hide HandOk, LimitOk, Settleable, Settle;
    SettleLeaves(g);
    LiveBound(g);
  }

  lemma ReachedTracked(g: Game, initial: seq<int>)
    requires HandOk(g) && Tracked(g, initial)
    ensures Tracked(Reached(g), initial)
  {
    hide HandOk, Reached;
    ReachedStakes(g);
  }

  lemma TrackedSeats(g: Game, initial: seq<int>)
    requires Tracked(g, initial)
    ensures |initial| == |g.players|
  {
  }

  lemma AdvanceLoss(t: Table)
    requires HandOk(t.game) && Flat(t.game) && t.result.None? && t.phase == InHand && LossTable(t, t.game.cfg)
    ensures AdvanceTable(t).Done? ==> LossTable(AdvanceTable(t).table, t.game.cfg)
  {
    hide HandOk, Reached, Settle, Settleable, LimitOk, Tracked, AdvanceHand, LossOk, Ends;
    var g := Reached(t.game);
    AdvanceReaches(t.game);
    ReachedStakes(t.game);
    ReachedTracked(t.game, t.handInitial);
    TrackedSeats(t.game, t.handInitial);
    SettledCfg(g);
    if g.cfg.structure == FixedLimit {
      ReachedLimit(t.game);
      SettledLoss(g, t.handInitial);
    }
  }

  lemma SettledCfg(g: Game)
    requires Settleable(g)
    ensures Settle(g, false).game.cfg == g.cfg && |Settle(g, false).game.players| == |g.players|
  {
    hide Settle, Settleable;
    SettleIs(g, false);
  }

  lemma StartTracked(g: Game, deck: seq<Card>)
    requires IdleOk(g) && PositionsOk(g) && |WithChips(g.players)| >= 2 && FullDeck(deck) && |g.players| <= 9
    ensures Startable(g) && |deck| >= 2 * |g.players|
    ensures var r := StartHand(g, deck);
            r.cfg == g.cfg && r.street == Preflop && |r.players| == |g.players| && Tracked(r, Stacks(g.players))
  {
    hide StartHand;
    StartedSeats(g, deck);
    forall i: nat | i < |g.players|
      ensures Stacks(g.players)[i] == PlayerChips(StartHand(g, deck).players[i])
           && StartHand(g, deck).players[i].totalDead <= Ante(g.cfg)
    {
      BlindsTaken(g, deck, i);
    }
  }

  lemma StartedSeats(g: Game, deck: seq<Card>)
    requires IdleOk(g) && PositionsOk(g) && |WithChips(g.players)| >= 2 && |deck| >= 2 * |g.players|
    ensures Startable(g)
    ensures var r := StartHand(g, deck); r.cfg == g.cfg && r.street == Preflop && |r.players| == |g.players|
  {
    HasSeat(WithChips(g.players), |g.players|);
    AdvanceFits(WithChips(g.players), PositionsOf(g), |g.players|);
  }

  lemma StartLoss(t: Table, deck: seq<Card>)
    requires TableOk(t) && FullDeck(deck) && Ready(t)
    ensures StartHandCall(t, deck).Done? ==> LossTable(StartHandCall(t, deck).table, t.game.cfg)
  {
    hide HandOk, LimitOk, StartHand, AdvanceTable, Tracked, StartHandCall;
    StartIs(t, deck);
    StartLimit(t.game, deck);
    StartTracked(t.game, deck);
    AdvanceLoss(WithGame(t, StartHand(t.game, deck)));
  }

  lemma MoveTracked(g: Game, i: nat, a: Action, initial: seq<int>)
    requires RoundOk(g) && Tracked(g, initial) && Act(g, i, a).Ok?
    ensures var r := Act(g, i, a).value;
            Tracked(r, initial) && r.cfg == g.cfg && r.street == g.street && |r.players| == |g.players|
  {
    hide RoundOk, Act;
    ActMoves(g, i, a);
  }

  lemma CommandLoss(t: Table, who: string, c: Command)
    requires TableOk(t) && LossTable(t, t.game.cfg) && CommandCall(t, who, c).Done? && t.result.None?
    ensures LossTable(CommandCall(t, who, c).table, t.game.cfg)
  {
    hide CommandCall, RoundOk, LimitOk, Act, AdvanceTable, BetsOk, CardsOk, Tracked;
    CommandIs(t, who, c);
    var i, a := t.game.actor.value, ActionOf(c);
    MoveTracked(t.game, i, a, t.handInitial);
    if t.game.cfg.structure == FixedLimit { ActKeepsLimit(t.game, i, a); }
    AdvanceLoss(t.(game := Act(t.game, i, a).value));
  }

  /** While a hand is on no result is recorded. */
  ghost predicate Unrecorded(t: Table) {
    t.phase == InHand ==> t.result.None?
  }

  lemma ApplyUnrecorded(t: Table, s: Step)
    requires TableOk(t) && StepOk(s) && Unrecorded(t)
    ensures Unrecorded(After(t, s))
  {
    hide TableOk, HandOk, AdvanceHand;
    match s
    case StartHandStep(deck) => StartIs(t, deck);
    case CommandStep(who, c) => if CommandCall(t, who, c) != Rejected { CommandIs(t, who, c); }
    case CloseStep =>
  }

  lemma ApplyLoss(t: Table, s: Step)
    requires TableOk(t) && StepOk(s) && LossTable(t, t.game.cfg) && Unrecorded(t)
    ensures LossTable(After(t, s), t.game.cfg)
  {
    hide TableOk, LossTable, StartHandCall, CommandCall;
    match s
    case StartHandStep(deck) =>
      StartIs(t, deck);
      if Ready(t) { StartLoss(t, deck); }
    case CommandStep(who, c) =>
      if CommandCall(t, who, c).Done? {
        CommandIs(t, who, c);
        CommandLoss(t, who, c);
      }
    case CloseStep => ClosedLoss(t);
  }

  lemma ClosedLoss(t: Table)
    requires LossTable(t, t.game.cfg)
    ensures CloseCall(t).Done? ==> LossTable(CloseCall(t).table, t.game.cfg)
  {
  }

  lemma {:induction false} RunLoss(t: Table, steps: seq<Step>, cfg: Config)
    requires TableOk(t) && StepsOk(steps) && LossTable(t, cfg) && Unrecorded(t)
    ensures LossTable(Run(t, steps), cfg)
    decreases |steps|
  {
    hide TableOk, Apply, Tracked, LimitOk;
    if |steps| > 0 {
      ApplyKeeps(t, steps[0]);
      ApplyUnrecorded(t, steps[0]);
      ApplyLoss(t, steps[0]);
      RunLoss(After(t, steps[0]), steps[1..], cfg);
    }
  }

  /** Main result: over any run of a Fixed-Limit table every hand it records cost each seat at most 25 big blinds and, if
      the table plays it, the big blind's ante. */
  lemma RunBoundsLoss(ids: seq<string>, chips: seq<int>, cfg: Config, steps: seq<Step>)
    requires Open(ids, chips, cfg).Done? && StepsOk(steps) && cfg.structure == FixedLimit
    ensures TableOk(Open(ids, chips, cfg).table)
    ensures var r := Run(Open(ids, chips, cfg).table, steps).result;
            r.Some? ==>
              && |r.value.initialChips| == |r.value.finalChips| == |ids|
              && forall i :: 0 <= i < |ids| ==>
                   r.value.initialChips[i] - r.value.finalChips[i] <= 25 * cfg.bb + (if cfg.bbAnte then cfg.bb else 0)
  {
    hide Run;
    OpenOk(ids, chips, cfg);
    RunLoss(Open(ids, chips, cfg).table, steps, cfg);
  }
}
