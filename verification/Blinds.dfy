/** Blind rotation over any number of hands (`_advance_positions` in holdem/engine.py). */
module Blinds {
  import opened Sets
  import opened Evaluator
  import opened Settlement
  import opened Game
  import opened Betting
  import opened Dealing
  import opened Settling
  import opened Table

  lemma AnotherSeat(D: set<nat>, b: nat) returns (s: nat)
    requires |D| >= 2
    ensures s in D && s != b
  {
    var E := D - {b};
    assert E != {} by {
      if E == {} {
        assert D <= {b};
        SubsetSize(D, {b});
      }
    }
    s :| s in E;
  }

  /** The next seat is another seat while two have chips. */
  lemma NextIsOther(D: set<nat>, i: nat, n: nat)
    requires i < n && |D| >= 2 && (forall s :: s in D ==> s < n) && SeatIn(D, n)
    ensures NextIn(D, i, n) != i
  {
    var s := AnotherSeat(D, i);
    assert Steps(i, s, n) < Steps(i, i, n);
  }

  /** Small and big blind never share a seat, and heads-up the button is the small blind. */
  lemma BlindsDiffer(D: set<nat>, pos: Positions, n: nat)
    requires pos.button < n && (pos.bbSeat.Some? ==> pos.bbSeat.value < n && pos.sbSeat.Some? && pos.sbSeat.value < n)
    requires |D| >= 2 && (forall s :: s in D ==> s < n) && SeatIn(D, n)
    ensures var r := Advance(D, pos, n);
            && r.sbSeat != r.bbSeat
            && r.bbSeat.value in D
            && (|D| == 2 ==> r.sbSeat == Some(r.button) && r.button in D)
  {
    if pos.bbSeat.None? {
      var b := NextIn(D, pos.button, n);
      NextIsOther(D, b, n);
      NextIsOther(D, NextIn(D, b, n), n);
    } else {
      var prev := pos.bbSeat.value;
      NextIsOther(D, prev, n);
      var bb := NextIn(D, prev, n);
      var s := AnotherSeat(D, bb);
      assert s in D - {bb};
      HasSeat(D - {bb}, n);
    }
  }

  // ---------------------------------------------- one turn of the table

  /** What a hand's start records: the seats with chips and the big blind. */
  datatype Record = Record(live: set<nat>, bb: nat)

  /** Records of successive hands: the big blind moves to the next seat with chips, and chips never come back. */
  ghost predicate Rotation(log: seq<Record>, n: nat) {
    && (forall k :: 0 <= k < |log| ==> log[k].bb < n && log[k].bb in log[k].live)
    && (forall k :: 0 < k < |log| ==> Follows(log[k - 1], log[k], n))
  }

  ghost predicate Follows(a: Record, b: Record, n: nat) {
    a.bb < n && b.live <= a.live && SeatIn(b.live, n) && b.bb == NextIn(b.live, a.bb, n)
  }

  lemma {:induction false} LiveShrinks(log: seq<Record>, n: nat, j: nat, k: nat)
    requires Rotation(log, n) && j <= k < |log|
    ensures log[k].live <= log[j].live
  {
    if j < k {
      assert Follows(log[k - 1], log[k], n);
      LiveShrinks(log, n, j, k - 1);
    }
  }

  /** `x` is the big blind at hands `t` and `u` and at none in between. */
  ghost predicate Turn(log: seq<Record>, n: nat, t: nat, u: nat) {
    && Rotation(log, n) && t < u < |log| && log[t].bb == log[u].bb
    && forall k :: t < k < u ==> log[k].bb != log[t].bb
  }

  /** Within a turn the big blind moves forward and never past its starting seat. */
  lemma StepForward(log: seq<Record>, n: nat, t: nat, u: nat, k: nat, y: nat)
    requires Turn(log, n, t, u) && t <= k < u && y < n && y in log[k + 1].live
    ensures var x, b, c := log[t].bb, log[k].bb, log[k + 1].bb;
            && (k + 1 < u ==> Dist(x, b, n) < Dist(x, c, n))
            && (Dist(x, b, n) < Dist(x, y, n) ==> k + 1 < u && Dist(x, c, n) <= Dist(x, y, n))
  {
    var x := log[t].bb;
    assert Follows(log[k], log[k + 1], n);
    LiveShrinks(log, n, k + 1, u);
    assert x in log[k + 1].live;
    assert log[k].bb < n && x < n;
  }

  /** The big blind reaches every seat that keeps its chips. */
  lemma {:induction false} Reaches(log: seq<Record>, n: nat, t: nat, u: nat, k: nat, y: nat) returns (j: nat)
    requires Turn(log, n, t, u) && t <= k < u && y < n
    requires forall m :: t < m <= u ==> y in log[m].live
    requires Dist(log[t].bb, log[k].bb, n) < Dist(log[t].bb, y, n)
    ensures k < j < u && log[j].bb == y
    decreases u - k
  {
    StepForward(log, n, t, u, k, y);
    if log[k + 1].bb == y {
      j := k + 1;
    } else {
      j := Reaches(log, n, t, u, k + 1, y);
    }
  }

  lemma {:induction false} Forward(log: seq<Record>, n: nat, t: nat, u: nat, j: nat, k: nat)
    requires Turn(log, n, t, u) && t <= j < k < u
    ensures Dist(log[t].bb, log[j].bb, n) < Dist(log[t].bb, log[k].bb, n)
  {
    StepForward(log, n, t, u, k - 1, log[k].bb);
    if j < k - 1 { Forward(log, n, t, u, j, k - 1); }
  }

  /** Between two big blinds of one seat, every other seat that kept chips posts it exactly once. */
  lemma FairTurn(log: seq<Record>, n: nat, t: nat, u: nat, y: nat)
    requires Turn(log, n, t, u) && y < n && y != log[t].bb
    requires forall m :: t < m <= u ==> y in log[m].live
    ensures exists j :: t < j < u && log[j].bb == y && forall k :: t < k < u && log[k].bb == y ==> k == j
  {
    assert Dist(log[t].bb, log[t].bb, n) == 0 < Dist(log[t].bb, y, n);
    var j := Reaches(log, n, t, u, t, y);
    forall k | t < k < u && log[k].bb == y ensures k == j {
      if k < j { Forward(log, n, t, u, k, j); }
      if j < k { Forward(log, n, t, u, j, k); }
    }
  }

  // ---------------------------------------------- every run of a table

  /** The seats that may still hold chips, and the big blind, are those of the last hand started. */
  ghost predicate Tracks(g: Game, p: Record) {
    g.bbSeat == Some(p.bb) && forall i: nat :: i < |g.players| && (g.players[i].inSeat || g.players[i].stack > 0) ==> i in p.live
  }

  lemma SettleTracks(g: Game, p: Record)
    requires HandOk(g) && Tracks(g, p)
    ensures Settleable(g)
    ensures Settle(g, false).game.bbSeat == Some(p.bb)
    ensures forall i: nat :: i < |g.players| && Settle(g, false).game.players[i].stack > 0 ==> i in p.live
  {
    HandSettles(g);
    SettleOk(g, false);
  }

  lemma StreetTracks(g: Game, p: Record)
    requires HandOk(g) && g.street != Showdown && Tracks(g, p)
    ensures Tracks(NextStreet(g), p)
  {
  }

  ghost predicate Holders(g: Game, p: Record) {
    g.bbSeat == Some(p.bb) && forall i: nat :: i < |g.players| && g.players[i].stack > 0 ==> i in p.live
  }

  lemma {:induction false} AdvanceTracks(g: Game, p: Record)
    requires HandOk(g) && Tracks(g, p)
    ensures match AdvanceHand(g)
            case Waiting(h) => Tracks(h, p)
            case Finished(s) => Holders(s.game, p)
    decreases StreetsLeft(g.street)
  {
    hide Settle, Settleable, NextStreet, Leads, RoundOk, SeatOk;
    if |ContestedSeats(g.players)| <= 1 || Locked(g) || g.street == Showdown {
      SettleTracks(g, p);
      SettledLeads(g);
    } else if g.actor.None? {
      StreetTracks(g, p);
      StreetKeepsHand(g);
      AdvanceTracks(NextStreet(g), p);
    }
  }

  /** The last hand started, as the table remembers it. */
  ghost predicate Remembers(t: Table, p: Record) {
    if t.phase == InHand then Tracks(t.game, p) else Holders(t.game, p)
  }

  lemma AdvanceRemembers(t: Table, p: Record)
    requires HandOk(t.game) && Tracks(t.game, p) && t.phase == InHand
    ensures AdvanceTable(t).Done? ==> Remembers(AdvanceTable(t).table, p)
  {
    AdvanceTracks(t.game, p);
  }

  lemma CommandRemembers(t: Table, who: string, c: Command, p: Record)
    requires TableOk(t) && Remembers(t, p) && CommandCall(t, who, c).Done?
    ensures Remembers(CommandCall(t, who, c).table, p)
  {
    hide RoundOk, BetsOk, CardsOk, CommandCall, AdvanceTable, Act;
    CommandIs(t, who, c);
    var i, a := t.game.actor.value, ActionOf(c);
    ActMoves(t.game, i, a);
    AdvanceRemembers(t.(game := Act(t.game, i, a).value), p);
  }

  /** What starting a hand records. */
  function Started(t: Table): (p: Record)
    requires TableOk(t) && t.phase != InHand && |WithChips(t.game.players)| >= 2
  {
    HasSeat(WithChips(t.game.players), |t.game.players|);
    AdvanceFits(WithChips(t.game.players), PositionsOf(t.game), |t.game.players|);
    Record(WithChips(t.game.players),
           Advance(WithChips(t.game.players), PositionsOf(t.game), |t.game.players|).bbSeat.value)
  }

  /** From a cleared table on, starting a hand keeps the blind's seat and who is in the hand. */
  lemma OpenedFrom(g: Game, live: set<nat>, first: nat, r: Game)
    requires ClearTable(g) && |g.deck| >= 2 * |g.players| && first < |g.players|
    requires r == OpenRound(DealHoles(BringIn(PostBig(PostSmall(g))), live), first)
    ensures r.bbSeat == g.bbSeat && |r.players| == |g.players|
    ensures forall i: nat :: i < |g.players| ==> r.players[i].inSeat == g.players[i].inSeat
  {
    hide BetsOk, ChipsOf, SeatsOk;
    BringInOk(g);
    DealHolesKeeps(BringIn(PostBig(PostSmall(g))), live);
  }

  lemma StartTracks(g: Game, deck: seq<Card>, p: Record)
    requires IdleOk(g) && PositionsOk(g) && |WithChips(g.players)| >= 2 && FullDeck(deck) && |g.players| <= 9
    requires p.live == WithChips(g.players) && SeatIn(p.live, |g.players|)
    requires Advance(p.live, PositionsOf(g), |g.players|).bbSeat == Some(p.bb)
    ensures Startable(g) && |deck| >= 2 * |g.players| && Tracks(StartHand(g, deck), p)
  {
    hide ClearTable, ChipsOf, PostBig, PostSmall, ReopenOk, TurnsOk, ActedOk;
    var live, g1 := WithChips(g.players), Cleared(g, deck);
    ClearedOk(g, deck);
    ClearedKeeps(g, deck);
    var posted := BringIn(PostBig(PostSmall(g1)));
    OpenedFrom(g1, live, FirstToAct(posted, live), StartHand(g, deck));
    StartedOk(g, deck);
  }

  lemma StartRemembers(t: Table, deck: seq<Card>)
    requires TableOk(t) && FullDeck(deck) && StartHandCall(t, deck).Done?
    ensures t.phase != InHand && |WithChips(t.game.players)| >= 2
    ensures Remembers(StartHandCall(t, deck).table, Started(t))
  {
    var p := Started(t);
    HasSeat(WithChips(t.game.players), |t.game.players|);
    StartedHandOk(t.game, deck);
    StartTracks(t.game, deck, p);
    AdvanceRemembers(t.(handInitial := Stacks(t.game.players), result := None,
                        game := StartHand(t.game, deck), phase := InHand), p);
  }

  /** The hands a run starts. */
  function LogOf(t: Table, steps: seq<Step>): (log: seq<Record>)
    requires TableOk(t) && StepsOk(steps)
    decreases |steps|
  {
    if |steps| == 0 then []
    else
      ApplyKeeps(t, steps[0]);
      var rest := LogOf(After(t, steps[0]), steps[1..]);
      if steps[0].StartHandStep? && Apply(t, steps[0]).Done? then [Started(t)] + rest else rest
  }

  lemma StartedFollows(t: Table, p: Record)
    requires TableOk(t) && t.phase != InHand && |WithChips(t.game.players)| >= 2 && Remembers(t, p)
    ensures Follows(p, Started(t), |t.ids|)
  {
    HasSeat(WithChips(t.game.players), |t.game.players|);
    BlindsDiffer(WithChips(t.game.players), PositionsOf(t.game), |t.game.players|);
  }

  lemma StepRemembers(t: Table, s: Step, p: Record)
    requires TableOk(t) && StepOk(s) && Remembers(t, p)
    requires !(s.StartHandStep? && Apply(t, s).Done?)
    ensures Remembers(After(t, s), p)
  {
    if s.CommandStep? && Apply(t, s).Done? { CommandRemembers(t, s.who, s.command, p); }
  }

  lemma StartStep(t: Table, s: Step, p: Record)
    requires TableOk(t) && StepOk(s) && s.StartHandStep? && Apply(t, s).Done? && Remembers(t, p)
    ensures t.phase != InHand && |WithChips(t.game.players)| >= 2
    ensures Remembers(After(t, s), Started(t)) && Follows(p, Started(t), |t.ids|)
    ensures Started(t).bb < |t.ids| && Started(t).bb in Started(t).live
  {
    StartRemembers(t, s.deck);
    StartedFollows(t, p);
    StartedInLive(t);
  }

  lemma {:induction false} LogRotates(t: Table, steps: seq<Step>, p: Record)
    requires TableOk(t) && StepsOk(steps) && Remembers(t, p) && p.bb < |t.ids| && p.bb in p.live
    ensures Rotation([p] + LogOf(t, steps), |t.ids|)
    decreases |steps|
  {
    hide TableOk, Remembers, Apply, Started, Follows;
    if |steps| > 0 {
      var s, u := steps[0], After(t, steps[0]);
      ApplyKeeps(t, s);
      if s.StartHandStep? && Apply(t, s).Done? {
        StartStep(t, s, p);
        LogRotates(u, steps[1..], Started(t));
        RotationCons(p, [Started(t)] + LogOf(u, steps[1..]), |t.ids|);
      } else {
        StepRemembers(t, s, p);
        LogRotates(u, steps[1..], p);
      }
    }
  }

  lemma StartedInLive(t: Table)
    requires TableOk(t) && t.phase != InHand && |WithChips(t.game.players)| >= 2
    ensures Started(t).bb < |t.ids| && Started(t).bb in Started(t).live
  {
    HasSeat(WithChips(t.game.players), |t.game.players|);
    AdvanceFits(WithChips(t.game.players), PositionsOf(t.game), |t.game.players|);
  }

  lemma RotationCons(p: Record, log: seq<Record>, n: nat)
    requires Rotation(log, n) && |log| > 0 && p.bb < n && p.bb in p.live && Follows(p, log[0], n)
    ensures Rotation([p] + log, n)
  {
    var all := [p] + log;
    forall k | 0 < k < |all| ensures Follows(all[k - 1], all[k], n) {
      if k > 1 { assert Follows(log[k - 2], log[k - 1], n); }
    }
  }

  /** Main result: over any run of a table, blinds rotate fairly. */
  lemma RunRotates(ids: seq<string>, chips: seq<int>, cfg: Config, steps: seq<Step>)
    requires Open(ids, chips, cfg).Done? && StepsOk(steps)
    ensures var t := Open(ids, chips, cfg).table; TableOk(t) && Rotation(LogOf(t, steps), |ids|)
  {
    OpenOk(ids, chips, cfg);
    FreshRotates(Open(ids, chips, cfg).table, steps);
  }

  /** Main result: over any run of a table, between two big blinds of one seat every other seat that kept chips throughout
      posts the big blind exactly once. */
  lemma RunIsFair(ids: seq<string>, chips: seq<int>, cfg: Config, steps: seq<Step>, t: nat, u: nat, y: nat)
    requires Open(ids, chips, cfg).Done? && StepsOk(steps) && TableOk(Open(ids, chips, cfg).table)
    requires var log := LogOf(Open(ids, chips, cfg).table, steps);
             && t < u < |log| && log[t].bb == log[u].bb && (forall k :: t < k < u ==> log[k].bb != log[t].bb)
             && y < |ids| && y != log[t].bb && forall m :: t < m <= u ==> y in log[m].live
    ensures var log := LogOf(Open(ids, chips, cfg).table, steps);
            exists j :: t < j < u && log[j].bb == y && forall k :: t < k < u && log[k].bb == y ==> k == j
  {
    hide LogOf, TableOk, Rotation;
    RunRotates(ids, chips, cfg, steps);
    FairTurn(LogOf(Open(ids, chips, cfg).table, steps), |ids|, t, u, y);
  }

  lemma FreshStep(t: Table, s: Step)
    requires TableOk(t) && StepOk(s) && t.game.bbSeat.None? && t.phase != InHand
    requires !(s.StartHandStep? && Apply(t, s).Done?)
    ensures After(t, s).game.bbSeat.None? && After(t, s).phase != InHand && After(t, s).ids == t.ids
  {
    hide TableOk;
    if s.CommandStep? && Apply(t, s) != Rejected { CommandIs(t, s.who, s.command); }
  }

  lemma {:induction false} FreshRotates(t: Table, steps: seq<Step>)
    requires TableOk(t) && StepsOk(steps) && t.game.bbSeat.None? && t.phase != InHand
    ensures Rotation(LogOf(t, steps), |t.ids|)
    decreases |steps|
  {
    hide TableOk, Remembers, Apply, Started, Follows;
    if |steps| > 0 {
      var s, u := steps[0], After(t, steps[0]);
      ApplyKeeps(t, s);
      if s.StartHandStep? && Apply(t, s).Done? {
        FirstStart(t, s);
        LogRotates(u, steps[1..], Started(t));
      } else {
        FreshStep(t, s);
        FreshRotates(u, steps[1..]);
      }
    }
  }

  lemma FirstStart(t: Table, s: Step)
    requires TableOk(t) && StepOk(s) && s.StartHandStep? && Apply(t, s).Done?
    ensures t.phase != InHand && |WithChips(t.game.players)| >= 2
    ensures Remembers(After(t, s), Started(t))
    ensures Started(t).bb < |t.ids| && Started(t).bb in Started(t).live
  {
    StartRemembers(t, s.deck);
    StartedInLive(t);
  }
}
