/** `PokerTable` (holdem/embedding.py): an object that owns an engine and drives it from hand to hand. */
module PokerTables {
  import opened Sums
  import opened Evaluator
  import opened Settlement
  import opened Game
  import opened Betting
  import opened Dealing
  import opened Settling
  import opened Table
  import opened Engines
  import HandScoring
  import G = Game
  import S = Settling
  import Tbl = Table

  class PokerTable {
    const engine: Engine
    const ids: seq<string>
    const initial: seq<int>
    const straights: map<nat, int>
    var phase: Phase
    var handInitial: seq<int>
    var result: Option<HandResult>
    var receipt: Option<seq<int>>

    function State(): (t: Table)
      reads this, engine
    {
      Table(engine.State(), phase, ids, initial, handInitial, result, receipt)
    }

    ghost predicate Valid()
      reads this, engine
    {
      Tbl.TableOk(State()) && HandScoring.TableOk(straights)
    }

    constructor (ids: seq<string>, chips: seq<int>, cfg: Config)
      requires Buyable(ids, chips, cfg)
      ensures Valid() && fresh(engine) && Open(ids, chips, cfg) == Done(State())
    {
      var table := HandScoring.BuildStraightTable();
      this.ids, initial, phase, handInitial, result, receipt := ids, chips, Lobby, [], None, None;
      engine := new Engine(cfg, Seated(chips));
      straights := table;
      new;
      OpenOk(ids, chips, cfg);
    }

    /** `_advance`: settle, wait or deal, until the hand waits or is over. */
    method Advance() returns (ok: bool)
      requires HandOk(engine.State()) && phase == InHand && HandScoring.TableOk(straights)
      modifies this, engine
      ensures match AdvanceTable(old(State()))
              case Done(t) => ok && State() == t
              case _ => !ok
    {
      hide HandOk, G.NextStreet, S.Settle, Settleable, RoundOk;
      ghost var g := engine.State();
      while true
        invariant HandOk(engine.State()) && AdvanceHand(engine.State()) == AdvanceHand(g)
        invariant unchanged(this)
        decreases StreetsLeft(engine.street)
      {
        var over := HandOver();
        AdvanceTurn(engine.State());
        if over {
          ok := Finish();
          return;
        }
        if engine.actor.Some? {
          return true;
        }
        engine.NextStreet();
      }
    }

    /** The hand is settled, its result recorded and the chips counted. */
    method Finish() returns (ok: bool)
      requires Settleable(engine.State()) && HandScoring.TableOk(straights)
      modifies this, engine
      ensures var final := Stacks(S.Settle(old(engine.State()), false).game.players);
              && ok == (Sum(final) == Sum(initial))
              && engine.State() == S.Settle(old(engine.State()), false).game
              && (ok ==> State() == old(State()).(game := engine.State(), phase := Between,
                                                  result := Some(HandResult(engine.handNo, old(handInitial), final))))
    {
      hide Settleable, S.Settle;
      engine.Settle(false, straights);
      var final := Stacks(engine.players);
      if Sum(final) != Sum(initial) {
        return false;
      }
      result := Some(HandResult(engine.handNo, handInitial, final));
      phase := Between;
      ok := true;
    }

    method HandOver() returns (over: bool)
      ensures over <==> Ends(engine.State())
    {
      var left := engine.Contested();
      var locked := engine.BettingLocked();
      over := |left| <= 1 || locked || engine.street == Showdown;
    }

    /** `start_hand`. */
    method StartHand(deck: seq<Card>) returns (ok: bool)
      requires Valid() && FullDeck(deck)
      modifies this, engine
      ensures Valid()
      ensures match StartHandCall(old(State()), deck)
              case Done(t) => ok && State() == t
              case _ => !ok && State() == old(State())
    {
      hide HandOk, G.StartHand, AdvanceTable, IdleOk, WithGame, StartHandCall;
      StartHandKeeps(State(), deck);
      StartIs(State(), deck);
      if phase != Lobby && phase != Between {
        return false;
      }
      var funded := engine.Funded();
      if |funded| < 2 {
        return false;
      }
      DealHand(deck);
      ok := Advance();
    }

    method DealHand(deck: seq<Card>)
      requires G.Startable(engine.State()) && |deck| >= 2 * |engine.players|
      modifies this, engine
      ensures State() == WithGame(old(State()), G.StartHand(old(engine.State()), deck))
      ensures engine.State() == G.StartHand(old(engine.State()), deck) && phase == InHand
    {
      hide G.Startable, G.StartHand;
      handInitial := Stacks(engine.players);
      result := None;
      engine.StartHand(deck);
      phase := InHand;
    }

    /** `command`: the move of the seat to act, refused before anything changes unless it is legal. */
    method Command(who: string, c: Command) returns (ok: bool)
      requires Valid()
      modifies this, engine
      ensures Valid()
      ensures match CommandCall(old(State()), who, c)
              case Done(t) => ok && State() == t
              case _ => !ok && State() == old(State())
    {
      hide HandOk, G.Act, Legal, AdvanceTable, IdleOk;
      var seat := SeatOf(ids, who);
      if seat.None? || phase != InHand || engine.actor != seat {
        return false;
      }
      var l := engine.LegalFor(seat.value);
      if !InRange(l, c) {
        return false;
      }
      ghost var t := State();
      var moved := engine.Act(seat.value, ActionOf(c));
      if !moved {
        return false;
      }
      CommandTakes(t, who, c);
      CommandKeeps(t, who, c);
      CommandIs(t, who, c);
      ok := Advance();
    }

    /** `close`: the final balances once no hand is on, the same receipt however often it is called. */
    method Close() returns (paid: Option<seq<int>>)
      requires Valid()
      modifies this
      ensures Valid()
      ensures match CloseCall(old(State()))
              case Done(t) => State() == t && paid == t.receipt && paid.Some?
              case _ => paid.None? && State() == old(State())
    {
      hide HandOk, IdleOk;
      if phase == InHand {
        return None;
      }
      if receipt.None? {
        receipt := Some(Stacks(engine.players));
        phase := Closed;
      }
      paid := receipt;
    }
  }

  /** A table for the arguments, or nothing where the constructor of the source raises. */
  method OpenTable(ids: seq<string>, chips: seq<int>, cfg: Config) returns (t: PokerTable?)
    ensures t != null <==> Open(ids, chips, cfg).Done?
    ensures t != null ==> fresh(t) && fresh(t.engine) && t.Valid() && Open(ids, chips, cfg) == Done(t.State())
  {
    if !Buyable(ids, chips, cfg) {
      return null;
    }
    t := new PokerTable(ids, chips, cfg);
  }
}
