/** Where button and blinds sit from hand to hand (holdem/engine.py, holdem/embedding.py). */
module Buttons {
  import opened Sets
  import opened Evaluator
  import opened Settlement
  import opened Game
  import opened Betting
  import opened Dealing
  import opened Settling
  import opened Table
  import opened Turns

  /** The seats of a started hand: who was dealt in, and where button and blinds are. */
  datatype Seating = Seating(live: set<nat>, button: nat, small: nat, big: nat)

  /** The first hand: the button goes to the next seat dealt in, the blinds to the next two; heads-up the button is the
      small blind. */
  ghost predicate FirstSeating(b: Seating, before: nat, n: nat) {
    && NextAfter(b.live, before, b.button, n)
    && (if |b.live| == 2 then b.small == b.button else NextAfter(b.live, b.button, b.small, n))
    && NextAfter(b.live, b.small, b.big, n)
  }

  /** Each hand after: the big blind goes to the next seat dealt in; the small blind stays on the last big blind's seat and
      the button on the last small blind's, whoever sits there; heads-up the other seat has both. */
  ghost predicate NextSeating(a: Seating, b: Seating, n: nat) {
    && NextAfter(b.live, a.big, b.big, n)
    && (if |b.live| == 2 then b.small == b.button && b.live == {b.small, b.big} else b.small == a.big && b.button == a.small)
    && b.small != b.big
  }

  function SeatingOf(g: Game, live: set<nat>): (r: Seating) {
    Seating(live, g.button, g.sbSeat.GetOr(0), g.bbSeat.GetOr(0))
  }

  predicate Fits(pos: Positions, n: nat) {
    pos.button < n && (pos.bbSeat.Some? ==> pos.bbSeat.value < n && pos.sbSeat.Some? && pos.sbSeat.value < n)
  }

  lemma NextInIsNext(D: set<nat>, i: nat, n: nat)
    requires i < n && SeatIn(D, n) && forall s :: s in D ==> s < n
    ensures NextAfter(D, i, NextIn(D, i, n), n)
  {
  }

  lemma FirstIs(D: set<nat>, pos: Positions, n: nat)
    requires Fits(pos, n) && pos.bbSeat.None? && |D| >= 2 && SeatIn(D, n) && forall s :: s in D ==> s < n
    ensures var r := Advance(D, pos, n);
            r.sbSeat.Some? && r.bbSeat.Some? && FirstSeating(Seating(D, r.button, r.sbSeat.value, r.bbSeat.value), pos.button, n)
  {
    hide NextAfter;
    var b := NextIn(D, pos.button, n);
    NextInIsNext(D, pos.button, n);
    NextInIsNext(D, b, n);
    NextInIsNext(D, NextIn(D, b, n), n);
  }

  lemma NextDiffers(D: set<nat>, i: nat, n: nat)
    requires i < n && |D| >= 2 && SeatIn(D, n) && forall s :: s in D ==> s < n
    ensures NextIn(D, i, n) != i
  {
    var w :| w in D - {i} by {
      if D - {i} == {} {
        assert D <= {i};
        SubsetSize(D, {i});
      }
    }
    assert Steps(i, w, n) < n == Steps(i, i, n);
  }

  lemma NextIs(D: set<nat>, pos: Positions, n: nat)
    requires Fits(pos, n) && pos.bbSeat.Some? && |D| >= 2 && SeatIn(D, n) && forall s :: s in D ==> s < n
    ensures var r := Advance(D, pos, n);
            && r.sbSeat.Some? && r.bbSeat.Some?
            && NextSeating(Seating(D, pos.button, pos.sbSeat.value, pos.bbSeat.value),
                           Seating(D, r.button, r.sbSeat.value, r.bbSeat.value), n)
  {
    var prev := pos.bbSeat.value;
    var bb := NextIn(D, prev, n);
    NextInIsNext(D, prev, n);
    NextDiffers(D, prev, n);
    if |D| == 2 { TwoSeats(D, bb, n); }
  }

  lemma TwoSeats(D: set<nat>, bb: nat, n: nat)
    requires |D| == 2 && bb in D && forall s :: s in D ==> s < n
    ensures SeatIn(D - {bb}, n) && (SeatIn(D - {bb}, n) && bb < n ==> D == {NextIn(D - {bb}, bb, n), bb})
  {
    assert |D - {bb}| == 1;
    var o :| o in D - {bb};
    assert D - {bb} - {o} == {} by {
      assert |D - {bb} - {o}| == 0;
    }
    assert D == {o, bb};
  }

  // ---------------------------------------------- every run of a table

  /** Between two starts nothing moves button or blinds. */
  lemma {:induction false} ReachedPlaces(g: Game)
    requires HandOk(g)
    ensures PositionsOf(Reached(g)) == PositionsOf(g)
    decreases StreetsLeft(g.street)
  {
    hide HandOk, Settle, AdvanceHand;
    AdvanceTurn(g);
    if !Ends(g) && g.actor.None? { ReachedPlaces(NextStreet(g)); }
  }

  lemma AdvancePlaces(t: Table)
    requires HandOk(t.game) && AdvanceTable(t).Done?
    ensures PositionsOf(AdvanceTable(t).table.game) == PositionsOf(t.game)
  {
    hide HandOk, Reached, Settle, Settleable, AdvanceHand, Ends;
    AdvanceReaches(t.game);
    ReachedPlaces(t.game);
    SettledPlaces(Reached(t.game));
  }

  lemma SettledPlaces(g: Game)
    requires Settleable(g)
    ensures PositionsOf(Settle(g, false).game) == PositionsOf(g)
  {
    hide Settle, Settleable;
    SettleIs(g, false);
  }

  lemma CommandPlaces(t: Table, who: string, c: Command)
    requires TableOk(t) && CommandCall(t, who, c).Done?
    ensures PositionsOf(CommandCall(t, who, c).table.game) == PositionsOf(t.game)
  {
    hide CommandCall, RoundOk, Act, AdvanceTable, BetsOk, CardsOk;
    CommandIs(t, who, c);
    var i, a := t.game.actor.value, ActionOf(c);
    ActMoves(t.game, i, a);
    AdvancePlaces(t.(game := Act(t.game, i, a).value));
  }

  lemma StartPlaces(t: Table, deck: seq<Card>)
    requires TableOk(t) && FullDeck(deck) && StartHandCall(t, deck).Done?
    ensures var D, n := WithChips(t.game.players), |t.game.players|;
            && Fits(PositionsOf(t.game), n) && |D| >= 2 && SeatIn(D, n) && (forall s :: s in D ==> s < n)
            && PositionsOf(StartHandCall(t, deck).table.game) == Advance(D, PositionsOf(t.game), n)
  {
    hide HandOk, AdvanceTable, StartHandCall, StartHand;
    StartIs(t, deck);
    AdvancePlaces(WithGame(t, StartHand(t.game, deck)));
    StartedPlaces(t.game, deck);
  }

  lemma StartedPlaces(g: Game, deck: seq<Card>)
    requires Startable(g) && |deck| >= 2 * |g.players|
    ensures SeatIn(WithChips(g.players), |g.players|) && Fits(PositionsOf(g), |g.players|)
    ensures PositionsOf(StartHand(g, deck)) == Advance(WithChips(g.players), PositionsOf(g), |g.players|)
  {
    HasSeat(WithChips(g.players), |g.players|);
    AdvanceFits(WithChips(g.players), PositionsOf(g), |g.players|);
  }

  /** The seatings of the hands a run starts, read off the table after each start. */
  ghost function SeatingsOf(t: Table, steps: seq<Step>): (log: seq<Seating>)
    requires TableOk(t) && StepsOk(steps)
    decreases |steps|
  {
    if |steps| == 0 then []
    else
      ApplyKeeps(t, steps[0]);
      var u := After(t, steps[0]);
      (if steps[0].StartHandStep? && Apply(t, steps[0]).Done? then [SeatingOf(u.game, WithChips(t.game.players))] else [])
      + SeatingsOf(u, steps[1..])
  }

  ghost predicate Chained(log: seq<Seating>, n: nat) {
    forall k :: 0 < k < |log| ==> NextSeating(log[k - 1], log[k], n)
  }

  /** The table's button and blinds are those of hand `a`. */
  predicate At(t: Table, a: Seating) {
    t.game.button == a.button && t.game.sbSeat == Some(a.small) && t.game.bbSeat == Some(a.big)
  }

  lemma StepPlaces(t: Table, s: Step, a: Seating)
    requires TableOk(t) && StepOk(s) && At(t, a) && !(s.StartHandStep? && Apply(t, s).Done?)
    ensures At(After(t, s), a)
  {
    hide TableOk, CommandCall, StartHandCall;
    if s.CommandStep? && Apply(t, s).Done? { CommandPlaces(t, s.who, s.command); }
  }

  lemma StartSeats(t: Table, s: Step, a: Seating)
    requires TableOk(t) && StepOk(s) && At(t, a) && s.StartHandStep? && Apply(t, s).Done?
    ensures var b := SeatingOf(After(t, s).game, WithChips(t.game.players));
            At(After(t, s), b) && NextSeating(a, b, |t.ids|) && After(t, s).ids == t.ids
  {
    hide StartHandCall, Advance, HandOk, IdleOk;
    StartPlaces(t, s.deck);
    StartHandKeeps(t, s.deck);
    NextIs(WithChips(t.game.players), PositionsOf(t.game), |t.game.players|);
  }

  lemma {:induction false} RunChained(t: Table, steps: seq<Step>, a: Seating)
    requires TableOk(t) && StepsOk(steps) && At(t, a)
    ensures Chained([a] + SeatingsOf(t, steps), |t.ids|)
    decreases |steps|
  {
    hide TableOk, Apply, NextSeating, At;
    if |steps| > 0 {
      var s, u := steps[0], After(t, steps[0]);
      ApplyKeeps(t, s);
      if s.StartHandStep? && Apply(t, s).Done? {
        var b := SeatingOf(u.game, WithChips(t.game.players));
        StartSeats(t, s, a);
        RunChained(u, steps[1..], b);
        Chain([a], [b] + SeatingsOf(u, steps[1..]), |t.ids|);
      } else {
        StepPlaces(t, s, a);
        RunChained(u, steps[1..], a);
        assert SeatingsOf(t, steps) == SeatingsOf(u, steps[1..]);
      }
    }
  }

  lemma Chain(a: seq<Seating>, log: seq<Seating>, n: nat)
    requires |a| == 1 && |log| > 0 && Chained(log, n) && NextSeating(a[0], log[0], n)
    ensures Chained(a + log, n)
  {
    hide NextSeating;
    var all := a + log;
    forall k | 0 < k < |all| ensures NextSeating(all[k - 1], all[k], n) {
      if k > 1 { assert NextSeating(log[k - 2], log[k - 1], n); }
    }
  }

  lemma FirstStart(t: Table, s: Step)
    requires TableOk(t) && StepOk(s) && t.game.bbSeat.None? && s.StartHandStep? && Apply(t, s).Done?
    ensures var b := SeatingOf(After(t, s).game, WithChips(t.game.players));
            At(After(t, s), b) && FirstSeating(b, t.game.button, |t.ids|) && After(t, s).ids == t.ids
  {
    hide StartHandCall, Advance, HandOk, IdleOk;
    StartPlaces(t, s.deck);
    StartHandKeeps(t, s.deck);
    FirstIs(WithChips(t.game.players), PositionsOf(t.game), |t.game.players|);
  }

  lemma FreshStays(t: Table, s: Step)
    requires TableOk(t) && StepOk(s) && t.game.bbSeat.None? && t.phase != InHand && !(s.StartHandStep? && Apply(t, s).Done?)
    ensures var u := After(t, s); u.game.bbSeat.None? && u.game.button == t.game.button && u.phase != InHand && u.ids == t.ids
  {
    hide TableOk, CommandCall, StartHandCall;
    if s.CommandStep? && Apply(t, s).Done? { CommandIs(t, s.who, s.command); }
  }

  lemma {:induction false} FreshChained(t: Table, steps: seq<Step>)
    requires TableOk(t) && StepsOk(steps) && t.game.bbSeat.None? && t.phase != InHand
    ensures var log := SeatingsOf(t, steps);
            Chained(log, |t.ids|) && (|log| > 0 ==> FirstSeating(log[0], t.game.button, |t.ids|))
    decreases |steps|
  {
    hide TableOk, Apply, NextSeating, FirstSeating, At;
    if |steps| > 0 {
      var s, u := steps[0], After(t, steps[0]);
      ApplyKeeps(t, s);
      if s.StartHandStep? && Apply(t, s).Done? {
        FirstStart(t, s);
        RunChained(u, steps[1..], SeatingOf(u.game, WithChips(t.game.players)));
      } else {
        FreshStays(t, s);
        FreshChained(u, steps[1..]);
      }
    }
  }

  /** Main result: over any run of a table the first hand has its button on the first seat and the blinds after it, and in
      every hand after that big blind, small blind and button follow the dead-button rule. */
  lemma RunSeats(ids: seq<string>, chips: seq<int>, cfg: Config, steps: seq<Step>)
    requires Open(ids, chips, cfg).Done? && StepsOk(steps) && TableOk(Open(ids, chips, cfg).table)
    ensures var log := SeatingsOf(Open(ids, chips, cfg).table, steps);
            Chained(log, |ids|) && (|log| > 0 ==> FirstSeating(log[0], |ids| - 1, |ids|))
  {
    hide SeatingsOf, TableOk, Chained, FirstSeating;
    FreshChained(Open(ids, chips, cfg).table, steps);
  }
}
