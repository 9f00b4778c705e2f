/** What a seat can lose in a Fixed-Limit hand (holdem/engine.py). */
module FixedLimit {
  import opened Evaluator
  import opened Settlement
  import opened Game
  import opened Betting
  import opened Dealing
  import opened Settling
  import opened Table
  import opened Blinds

  /** The highest bet a street can reach after `raises` raises. */
  function Ceiling(cfg: Config, street: Street, raises: nat): (c: int) {
    var unit := Unit(cfg, street);
    (if street == Preflop then cfg.bb else 0)
    + (match raises case 0 => 0 case 1 => unit case 2 => 2 * unit case 3 => 3 * unit case _ => 4 * unit)
  }

  /** What a seat can have put in on the streets before this one. */
  function Before(cfg: Config, street: Street): (k: int) {
    match street
    case Idle => 0
    case Preflop => 0
    case Flop => 5 * cfg.bb
    case Turn => 9 * cfg.bb
    case River => 17 * cfg.bb
    case Showdown => 25 * cfg.bb
  }

  /** At most four raises a street, each of one unit. */
  predicate LimitOk(g: Game) {
    && g.raises <= 4
    && g.currentBet <= Ceiling(g.cfg, g.street, g.raises)
    && Spent(g.players, Before(g.cfg, g.street))
  }

  predicate Spent(ps: seq<Player>, most: int) {
    forall i :: 0 <= i < |ps| ==> ps[i].totalLive - ps[i].bet <= most
  }

  /** A street at its ceiling uses up exactly the room before the next one. */
  lemma CeilingFits(cfg: Config, street: Street, raises: nat)
    requires cfg.bb > 0 && street != Idle && street != Showdown && raises <= 4
    ensures Ceiling(cfg, street, raises) <= Ceiling(cfg, street, 4)
    ensures Before(cfg, street) + Ceiling(cfg, street, 4) == Before(cfg, StreetAfter(street)) <= 25 * cfg.bb
  {
  }

  /** No seat's live chips exceed 25 big blinds: 5 before the flop, then 4, 8 and 8. */
  lemma LimitBound(g: Game)
    requires BetsOk(g) && LimitOk(g) && g.street != Idle && g.street != Showdown
    ensures forall i :: 0 <= i < |g.players| ==> g.players[i].totalLive <= 25 * g.cfg.bb
  {
    CeilingFits(g.cfg, g.street, g.raises);
    assert forall i :: 0 <= i < |g.players| ==> g.players[i].bet <= g.currentBet;
  }

  /** A raise in Fixed-Limit adds at most one unit and counts once, and there is no fifth. */
  lemma RaiseCounts(g: Game, i: nat, amount: int)
    requires RoundOk(g) && g.cfg.structure == FixedLimit && Act(g, i, Raise(amount)).Ok?
    ensures var r := Act(g, i, Raise(amount)).value;
            g.raises < 4 && r.raises == g.raises + 1 && r.currentBet <= g.currentBet + Unit(g.cfg, g.street)
  {
    hide TurnsOk, ActedOk, ReopenOk;
    LegalRaise(g, i, amount);
    RaiseRaises(g, i, amount);
  }

  lemma MoveCounts(g: Game, i: nat, action: Action)
    requires Act(g, i, action).Ok? && !action.Raise?
    ensures Act(g, i, action).value.raises == g.raises && Act(g, i, action).value.currentBet == g.currentBet
  {
  }

  lemma ActKeepsLimit(g: Game, i: nat, action: Action)
    requires RoundOk(g) && LimitOk(g) && g.cfg.structure == FixedLimit && Act(g, i, action).Ok?
    ensures LimitOk(Act(g, i, action).value)
  {
    hide RoundOk, Act;
    ActMoves(g, i, action);
    if action.Raise? {
      RaiseCounts(g, i, action.amount);
    } else {
      MoveCounts(g, i, action);
    }
  }

  lemma StreetKeepsLimit(g: Game)
    requires HandOk(g) && LimitOk(g) && g.street != Showdown
    ensures LimitOk(NextStreet(g))
  {
    hide RoundOk, CardsOf, SeatOk;
    CeilingFits(g.cfg, g.street, g.raises);
    StreetSpends(g, Ceiling(g.cfg, g.street, 4));
  }

  lemma StreetSpends(g: Game, most: int)
    requires DealCount(g.street) <= |g.deck| && g.button < |g.players| && Spent(g.players, Before(g.cfg, g.street))
    requires forall i :: 0 <= i < |g.players| ==> g.players[i].bet <= most
    ensures Spent(NextStreet(g).players, Before(g.cfg, g.street) + most)
  {
  }

  /** The bring-in is one big blind, since the blinds sit in different seats. */
  lemma StartLimit(g: Game, deck: seq<Card>)
    requires IdleOk(g) && PositionsOk(g) && |WithChips(g.players)| >= 2 && FullDeck(deck) && |g.players| <= 9
    ensures Startable(g) && |deck| >= 2 * |g.players| && LimitOk(StartHand(g, deck))
  {
    var live, g1 := WithChips(g.players), Cleared(g, deck);
    HasSeat(live, |g.players|);
    BlindsDiffer(live, PositionsOf(g), |g.players|);
    ClearedOk(g, deck);
    ClearedLive(g, deck);
    LimitFrom(g1, live, FirstToAct(BringIn(PostBig(PostSmall(g1))), live), StartHand(g, deck));
  }

  lemma ClearedLive(g: Game, deck: seq<Card>)
    requires Startable(g)
    ensures Cleared(g, deck).raises == 0
    ensures forall i :: 0 <= i < |g.players| ==> Cleared(g, deck).players[i].totalLive == 0
  {
  }

  lemma LimitFrom(g: Game, live: set<nat>, first: nat, r: Game)
    requires ClearTable(g) && |g.deck| >= 2 * |g.players| && first < |g.players| && g.sbSeat != g.bbSeat && g.raises == 0
    requires forall i :: 0 <= i < |g.players| ==> g.players[i].totalLive == 0
    requires r == OpenRound(DealHoles(BringIn(PostBig(PostSmall(g))), live), first)
    ensures LimitOk(r)
  {
    hide PostBig, PostSmall;
    var posted := BringIn(PostBig(PostSmall(g)));
    BringInOk(g);
    PostedLive(g);
    hide ClearTable, SeatOk;
    DealHolesKeeps(posted, live);
    SameSpent(posted.players, r.players);
  }

  lemma SameSpent(ps: seq<Player>, qs: seq<Player>)
    requires |qs| == |ps| && forall i :: 0 <= i < |ps| ==> qs[i].(hole := []) == ps[i].(hole := [])
    requires forall i :: 0 <= i < |ps| ==> ps[i].totalLive == ps[i].bet
    ensures Spent(qs, 0)
  {
    forall i | 0 <= i < |qs| ensures qs[i].totalLive == qs[i].bet {
      assert qs[i].(hole := []).totalLive == ps[i].(hole := []).totalLive;
    }
  }

  lemma PostedLive(g: Game)
    requires ClearTable(g) && forall i :: 0 <= i < |g.players| ==> g.players[i].totalLive == 0
    ensures forall i :: 0 <= i < |g.players| ==>
              var p := PostBig(PostSmall(g)).players[i]; p.totalLive == p.bet
  {
    SmallLive(g);
    BigLive(PostSmall(g));
  }

  lemma SmallLive(g: Game)
    requires g.sbSeat.Some? && g.sbSeat.value < |g.players|
    requires forall i :: 0 <= i < |g.players| ==> g.players[i].totalLive == g.players[i].bet
    ensures forall i :: 0 <= i < |g.players| ==> var p := PostSmall(g).players[i]; p.totalLive == p.bet
  {
  }

  lemma BigLive(g: Game)
    requires g.bbSeat.Some? && g.bbSeat.value < |g.players|
    requires forall i :: 0 <= i < |g.players| ==> g.players[i].totalLive == g.players[i].bet
    ensures forall i :: 0 <= i < |g.players| ==> var p := PostBig(g).players[i]; p.totalLive == p.bet
  {
  }

  // ------------------------------------------------- every run of a table

  lemma {:induction false} AdvanceKeepsLimit(g: Game)
    requires HandOk(g) && LimitOk(g)
    ensures AdvanceHand(g).Waiting? ==> LimitOk(AdvanceHand(g).game)
    decreases StreetsLeft(g.street)
  {
    hide RoundOk, SeatOk, Settle, LimitOk;
    if !(|ContestedSeats(g.players)| <= 1 || Locked(g) || g.street == Showdown) && g.actor.None? {
      StreetKeepsLimit(g);
      StreetKeepsHand(g);
      AdvanceKeepsLimit(NextStreet(g));
    }
  }

  ghost predicate LimitTable(t: Table) {
    t.phase == InHand && t.game.cfg.structure == FixedLimit ==> LimitOk(t.game)
  }

  lemma TableLimit(t: Table)
    requires HandOk(t.game) && (t.game.cfg.structure == FixedLimit ==> LimitOk(t.game))
    ensures AdvanceTable(t).Done? ==> LimitTable(AdvanceTable(t).table)
  {
    hide HandOk, LimitOk, Settle, AdvanceHand;
    if t.game.cfg.structure == FixedLimit { AdvanceKeepsLimit(t.game); }
    AdvanceCfg(t.game);
  }

  lemma StartKeepsLimit(t: Table, deck: seq<Card>)
    requires TableOk(t) && FullDeck(deck)
    ensures StartHandCall(t, deck).Done? ==> LimitTable(StartHandCall(t, deck).table)
  {
    hide HandOk, LimitOk, StartHand, AdvanceTable, LimitTable;
    if (t.phase == Lobby || t.phase == Between) && |WithChips(t.game.players)| >= 2 {
      StartLimit(t.game, deck);
      StartedHandOk(t.game, deck);
      TableLimit(t.(handInitial := Stacks(t.game.players), result := None,
                    game := StartHand(t.game, deck), phase := InHand));
    }
  }

  lemma CommandKeepsLimit(t: Table, who: string, c: Command)
    requires TableOk(t) && LimitTable(t) && CommandCall(t, who, c).Done?
    ensures LimitTable(CommandCall(t, who, c).table)
  {
    hide CommandCall, RoundOk, LimitOk, Act, AdvanceTable, SeatOk, CardsOk;
    CommandIs(t, who, c);
    var i, a := t.game.actor.value, ActionOf(c);
    ActMoves(t.game, i, a);
    if t.game.cfg.structure == FixedLimit { ActKeepsLimit(t.game, i, a); }
    TableLimit(t.(game := Act(t.game, i, a).value));
  }

  lemma ApplyKeepsLimit(t: Table, s: Step)
    requires TableOk(t) && StepOk(s) && LimitTable(t)
    ensures Apply(t, s).Done? ==> LimitTable(Apply(t, s).table)
  {
    hide TableOk, LimitTable, StartHandCall, CommandCall;
    match s
    case StartHandStep(deck) => StartKeepsLimit(t, deck);
    case CommandStep(who, c) => if CommandCall(t, who, c).Done? { CommandKeepsLimit(t, who, c); }
    case CloseStep => ClosedLimit(t);
  }

  lemma ClosedLimit(t: Table)
    requires LimitTable(t)
    ensures CloseCall(t).Done? ==> LimitTable(CloseCall(t).table)
  {
  }

  lemma {:induction false} AdvanceCfg(g: Game)
    requires HandOk(g)
    ensures AdvanceHand(g).Waiting? ==> AdvanceHand(g).game.cfg == g.cfg
    decreases StreetsLeft(g.street)
  {
    hide RoundOk, SeatOk, Settle;
    if !(|ContestedSeats(g.players)| <= 1 || Locked(g) || g.street == Showdown) && g.actor.None? {
      StreetKeepsHand(g);
      AdvanceCfg(NextStreet(g));
    }
  }

  lemma {:induction false} RunLimit(t: Table, steps: seq<Step>)
    requires TableOk(t) && StepsOk(steps) && LimitTable(t)
    ensures LimitTable(Run(t, steps))
    decreases |steps|
  {
    hide TableOk, LimitTable, Apply;
    if |steps| > 0 {
      ApplyKeeps(t, steps[0]);
      ApplyKeepsLimit(t, steps[0]);
      RunLimit(After(t, steps[0]), steps[1..]);
    }
  }

  /** Main result: over any run of a Fixed-Limit table no street has a fifth raise and no seat risks over 25 big blinds. */
  lemma RunKeepsLimit(ids: seq<string>, chips: seq<int>, cfg: Config, steps: seq<Step>)
    requires Open(ids, chips, cfg).Done? && StepsOk(steps)
    ensures TableOk(Open(ids, chips, cfg).table)
    ensures var g := Run(Open(ids, chips, cfg).table, steps).game;
            Run(Open(ids, chips, cfg).table, steps).phase == InHand && g.cfg.structure == FixedLimit ==>
              g.raises <= 4 && forall i :: 0 <= i < |g.players| ==> g.players[i].totalLive <= 25 * g.cfg.bb
  {
    hide Run;
    OpenOk(ids, chips, cfg);
    RunLimit(Open(ids, chips, cfg).table, steps);
    var t := Run(Open(ids, chips, cfg).table, steps);
    if t.phase == InHand && t.game.cfg.structure == FixedLimit { LimitBound(t.game); }
  }
}
