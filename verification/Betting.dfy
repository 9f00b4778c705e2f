/** What every betting move keeps (holdem/engine.py). */
module Betting {
  import opened Sums
  import opened Pots
  import opened Settlement
  import opened Game
  import Evaluator

  predicate ConfigOk(cfg: Config) {
    0 < cfg.sb <= cfg.bb
  }

  /** A seat in a hand: a seat that was not dealt in has nothing, one that was is all-in without a stack. */
  predicate SeatOk(p: Player) {
    && p.stack >= 0 && 0 <= p.bet <= p.totalLive && p.totalDead >= 0
    && (p.inSeat ==> (p.allIn <==> p.stack == 0))
    && (!p.inSeat ==> p.folded && p.stack == 0 && p.totalLive == 0 && p.totalDead == 0)
  }

  /** The bets: none above the current bet, raises sized as the structure says. */
  predicate BetsOk(g: Game) {
    && ConfigOk(g.cfg) && |g.players| >= 2 && g.button < |g.players|
    && (forall i :: 0 <= i < |g.players| ==> SeatOk(g.players[i]) && g.players[i].bet <= g.currentBet)
    && g.minRaise >= g.cfg.bb
    && (g.currentBet == 0 ==> g.minRaise == g.cfg.bb)
    && (g.cfg.structure == FixedLimit ==> g.minRaise <= Unit(g.cfg, g.street))
  }

  /** Who is asked: seats that can act, and every other seat that can act has matched the bet. */
  predicate TurnsOk(g: Game) {
    && (forall i :: i in g.need ==> i < |g.players| && CanAct(g.players[i]))
    && (forall i: nat :: i < |g.players| && CanAct(g.players[i]) && i !in g.need ==> g.players[i].bet == g.currentBet)
    && (if g.need == {} then g.actor == None else g.actor.Some? && g.actor.value in g.need)
  }

  /** While somebody is still asked, a seat that can act and is not asked has acted in this round; the bet noted for a seat
      that has acted is the one it still has. */
  predicate ActedOk(g: Game) {
    && (g.need != {} ==> forall i: nat :: i < |g.players| && CanAct(g.players[i]) && i !in g.need ==> i in g.actedAt)
    && (forall i :: i in g.actedAt ==> i < |g.players| && g.actedAt[i] == g.players[i].bet)
  }

  /** Rule 47-A: a seat asked again may raise exactly if the bet grew by a full raise since it acted. */
  predicate ReopenOk(g: Game) {
    forall i :: i in g.need ==>
      if i in g.actedAt then (i in g.noRaise <==> g.currentBet - g.actedAt[i] < g.minRaise) else i !in g.noRaise
  }

  predicate RoundOk(g: Game) {
    BetsOk(g) && TurnsOk(g) && ActedOk(g) && ReopenOk(g)
  }

  // ------------------------------------------------------ legal moves

  /** In a sound round a legal raise always raises, lies in range, and is all-in if it is short. */
  lemma LegalRaise(g: Game, i: nat, amount: int)
    requires BetsOk(g) && i < |g.players| && CanAct(g.players[i]) && Legal(g, i).canRaise
    ensures var l, p := Legal(g, i), g.players[i];
            var t := Target(l, amount);
            && g.currentBet < l.minTo <= t <= l.maxTo <= p.bet + p.stack
            && (t - g.currentBet < g.minRaise ==> t == p.bet + p.stack)
            && (g.cfg.structure == FixedLimit ==> t <= g.currentBet + Unit(g.cfg, g.street))
            && (g.cfg.structure == PotLimit ==>
                  t <= g.currentBet + PotOf(g.players) + (g.currentBet - p.bet) || t == l.minTo)
  {
  }

  lemma LegalCall(g: Game, i: nat)
    requires BetsOk(g) && i < |g.players|
    ensures var p := g.players[i];
            0 <= Legal(g, i).toCall <= p.stack
            && (Legal(g, i).toCall == p.stack || p.bet + Legal(g, i).toCall == g.currentBet)
  {
  }

  // ------------------------------------- a move, before the turn passes

  /** The state between a seat's move and `Finish`: sound, but for seat `i`'s own entry in the list. */
  predicate Pending(g: Game, i: nat) {
    && BetsOk(g) && i < |g.players|
    && (CanAct(g.players[i]) ==> g.players[i].bet == g.currentBet)
    && (forall j :: j in g.need && j != i ==> j < |g.players| && CanAct(g.players[j]))
    && (forall j: nat :: j < |g.players| && j != i && CanAct(g.players[j]) && j !in g.need ==>
          g.players[j].bet == g.currentBet && j in g.actedAt)
    && (forall j :: j in g.actedAt && j != i ==> j < |g.players| && g.actedAt[j] == g.players[j].bet)
    && (forall j :: j in g.need && j != i ==>
          if j in g.actedAt then (j in g.noRaise <==> g.currentBet - g.actedAt[j] < g.minRaise) else j !in g.noRaise)
  }

  lemma FinishKeeps(g: Game, i: nat)
    requires Pending(g, i)
    ensures RoundOk(Finish(g, i))
    ensures forall j: nat :: j < |g.players| && CanAct(g.players[j]) && j !in Finish(g, i).need ==> j in Finish(g, i).actedAt
  {
    var n, need := |g.players|, g.need - {i};
    var start := NextSeat(i, n);
    SeekSound(need, start, n, n);
    if need != {} {
      var s :| s in need;
      SeekNearest(need, start, n, n, s);
    } else if Seek(need, start, n, n).Some? {
      assert false;
    }
  }

  lemma FoldPending(g: Game, i: nat)
    requires RoundOk(g) && g.actor == Some(i)
    ensures Pending(DoFold(g, i), i)
  {
  }

  lemma CallPending(g: Game, i: nat)
    requires RoundOk(g) && g.actor == Some(i)
    ensures Pending(DoCall(g, i), i)
  {
    LegalCall(g, i);
  }

  lemma RaiseBets(g: Game, i: nat, target: int)
    requires RoundOk(g) && g.actor == Some(i)
    requires g.currentBet < target <= g.players[i].bet + g.players[i].stack
    requires g.cfg.structure == FixedLimit ==> target <= g.currentBet + Unit(g.cfg, g.street)
    ensures var r := DoRaise(g, i, target);
            && BetsOk(r) && r.currentBet == target == r.players[i].bet
            && (forall j: nat :: j < |g.players| && j != i ==> r.players[j] == g.players[j])
            && |r.players| == |g.players|
  {
  }

  lemma FullRaisePending(g: Game, i: nat, target: int)
    requires RoundOk(g) && g.actor == Some(i)
    requires g.currentBet + g.minRaise <= target <= g.players[i].bet + g.players[i].stack
    requires g.cfg.structure == FixedLimit ==> target <= g.currentBet + Unit(g.cfg, g.street)
    ensures Pending(DoRaise(g, i, target), i)
  {
    RaiseBets(g, i, target);
    var r := DoRaise(g, i, target);
    assert r.need == Movers(r.players) && r.noRaise == {} && r.actedAt == g.actedAt;
  }

  /** A short all-in asks every other seat that can act, and restricts those the bet has not grown enough for. */
  lemma ShortRaisePending(g: Game, i: nat, target: int)
    requires RoundOk(g) && g.actor == Some(i)
    requires g.currentBet < target < g.currentBet + g.minRaise && target <= g.players[i].bet + g.players[i].stack
    requires g.cfg.structure == FixedLimit ==> target <= g.currentBet + Unit(g.cfg, g.street)
    ensures Pending(DoRaise(g, i, target), i)
  {
    RaiseBets(g, i, target);
    var r := DoRaise(g, i, target);
    var behind := Behind(r.players, i, target);
    assert r.need == g.need + behind && r.actedAt == g.actedAt && r.minRaise == g.minRaise;
    forall j: nat | j < |r.players| && j != i && CanAct(r.players[j]) ensures j in behind {
      assert r.players[j] == g.players[j];
    }
    forall j | j in r.need && j != i
      ensures if j in r.actedAt then (j in r.noRaise <==> r.currentBet - r.actedAt[j] < r.minRaise) else j !in r.noRaise
    {
      assert j in behind;
      assert j in g.noRaise && j !in g.actedAt ==> j !in g.need;
    }
  }

  lemma RaisePending(g: Game, i: nat, target: int)
    requires RoundOk(g) && g.actor == Some(i)
    requires g.currentBet < target <= g.players[i].bet + g.players[i].stack
    requires g.cfg.structure == FixedLimit ==> target <= g.currentBet + Unit(g.cfg, g.street)
    ensures Pending(DoRaise(g, i, target), i)
  {
    if target - g.currentBet >= g.minRaise {
      FullRaisePending(g, i, target);
    } else {
      ShortRaisePending(g, i, target);
    }
  }

  /** The move itself, before the turn passes. */
  function Applied(g: Game, i: nat, action: Action): (r: Game)
    requires i < |g.players|
  {
    match action
    case Fold => DoFold(g, i)
    case Call => DoCall(g, i)
    case Raise(amount) => DoRaise(g, i, Target(Legal(g, i), amount))
  }

  /** An accepted move is what its name says, then the turn passes: a raise never falls back to a call. */
  lemma ActIs(g: Game, i: int, action: Action)
    requires RoundOk(g) && Act(g, i, action).Ok?
    ensures 0 <= i < |g.players| && |Applied(g, i, action).players| == |g.players|
    ensures Act(g, i, action).value == Finish(Applied(g, i, action), i)
    ensures Pending(Applied(g, i, action), i)
  {
    hide Pending, TurnsOk, ActedOk, ReopenOk, DoFold, DoCall, DoRaise, Finish;
    AppliedSeats(g, i, action);
    match action
    case Fold => FoldPending(g, i);
    case Call => CallPending(g, i);
    case Raise(amount) =>
      LegalRaise(g, i, amount);
      RaisePending(g, i, Target(Legal(g, i), amount));
  }

  lemma AppliedSeats(g: Game, i: nat, action: Action)
    requires i < |g.players|
    ensures |Applied(g, i, action).players| == |g.players|
  {
  }

  /** Every accepted move keeps the round sound. */
  lemma ActKeepsRound(g: Game, i: int, action: Action)
    requires RoundOk(g) && Act(g, i, action).Ok?
    ensures RoundOk(Act(g, i, action).value)
  {
    hide RoundOk, Act, Applied, Pending, Finish;
    ActIs(g, i, action);
    FinishKeeps(Applied(g, i, action), i);
  }

  /** A round closes only when every seat that can act has acted and bet the current bet. */
  lemma RoundCloses(g: Game, i: int, action: Action)
    requires RoundOk(g) && Act(g, i, action).Ok?
    ensures var r := Act(g, i, action).value;
            r.need == {} ==> forall j: nat :: j < |r.players| && CanAct(r.players[j]) ==>
              r.players[j].bet == r.currentBet && j in r.actedAt
  {
    hide Act, Applied, Pending, BetsOk, ActedOk, ReopenOk;
    ActIs(g, i, action);
    FinishKeeps(Applied(g, i, action), i);
  }

  /** A raise that is accepted raises the bet, never falls back to a call, and is all-in if it is short. */
  lemma RaiseRaises(g: Game, i: int, amount: int)
    requires RoundOk(g) && Act(g, i, Raise(amount)).Ok?
    ensures var r, target := Act(g, i, Raise(amount)).value, Target(Legal(g, i), amount);
            && r == Finish(DoRaise(g, i, target), i)
            && r.currentBet == r.players[i].bet == target > g.currentBet
            && (g.cfg.structure != FixedLimit ==> target == amount)
            && (r.currentBet - g.currentBet < g.minRaise ==> r.players[i].allIn && r.minRaise == g.minRaise)
            && (r.currentBet - g.currentBet >= g.minRaise ==>
                  r.minRaise == r.currentBet - g.currentBet && r.noRaise == {} && r.need == Movers(r.players) - {i})
  {
    LegalRaise(g, i, amount);
    RaiseBets(g, i, Target(Legal(g, i), amount));
  }

  // ------------------------------------------------- chips and progress

  function PlayerChips(p: Player): (t: int) {
    p.stack + p.totalLive + p.totalDead
  }

  /** Changing one seat changes the sums by that seat's change. */
  lemma SeatUpdate(ps: seq<Player>, i: nat, p: Player)
    requires i < |ps|
    ensures Sum(Stacks(ps[i := p])) == Sum(Stacks(ps)) - ps[i].stack + p.stack
    ensures ChipsOf(ps[i := p]) == ChipsOf(ps) - PlayerChips(ps[i]) + PlayerChips(p)
  {
    assert Stacks(ps[i := p]) == Stacks(ps)[i := p.stack];
    assert Lives(ps[i := p]) == Lives(ps)[i := p.totalLive];
    assert Deads(ps[i := p]) == Deads(ps)[i := p.totalDead];
    SumUpdate(Stacks(ps), i, p.stack);
    SumUpdate(Lives(ps), i, p.totalLive);
    SumUpdate(Deads(ps), i, p.totalDead);
  }

  /** What a move does to the players: seat `i` alone, its own chips moved forward. */
  predicate Moved(ps: seq<Player>, qs: seq<Player>, i: nat) {
    && i < |ps| == |qs| && qs == ps[i := qs[i]]
    && qs[i].hole == ps[i].hole && qs[i].inSeat == ps[i].inSeat && qs[i].totalDead == ps[i].totalDead
    && qs[i].won == ps[i].won
    && qs[i].stack <= ps[i].stack && PlayerChips(qs[i]) == PlayerChips(ps[i])
    && qs[i].totalLive - qs[i].bet == ps[i].totalLive - ps[i].bet
  }

  /** What a move leaves alone. */
  predicate SameTable(g: Game, r: Game) {
    && r.cfg == g.cfg && r.street == g.street && r.button == g.button && r.board == g.board && r.deck == g.deck
    && r.board2 == g.board2 && r.handNo == g.handNo && r.sbSeat == g.sbSeat && r.bbSeat == g.bbSeat
  }

  lemma RaiseMoves(g: Game, i: nat, target: int)
    requires i < |g.players| && g.players[i].bet <= g.currentBet < target <= g.players[i].bet + g.players[i].stack
    ensures var r := DoRaise(g, i, target);
            SameTable(g, r) && Moved(g.players, r.players, i) && r.players[i].stack < g.players[i].stack
            && r.players[i].folded == g.players[i].folded
  {
  }

  lemma CallMoves(g: Game, i: nat)
    requires BetsOk(g) && i < |g.players|
    ensures var r := DoCall(g, i);
            SameTable(g, r) && Moved(g.players, r.players, i) && r.need == g.need
            && r.players[i].folded == g.players[i].folded
  {
    LegalCall(g, i);
  }

  /** An accepted move touches one seat and leaves the table alone; without chips it only shortens the list. */
  lemma ActMoves(g: Game, i: int, action: Action)
    requires RoundOk(g) && Act(g, i, action).Ok?
    ensures var r := Act(g, i, action).value;
            && SameTable(g, r) && Moved(g.players, r.players, i) && i in g.need
            && r.players[i].folded == (action == Fold)
            && (r.players[i].stack == g.players[i].stack ==> r.need == g.need - {i})
  {
    match action
    case Fold =>
    case Call => CallMoves(g, i);
    case Raise(amount) =>
      LegalRaise(g, i, amount);
      RaiseMoves(g, i, Target(Legal(g, i), amount));
  }

  /** A move keeps all chips, and either commits some or shortens the list of seats still asked. */
  lemma ActProgress(g: Game, i: int, action: Action)
    requires RoundOk(g) && Act(g, i, action).Ok?
    ensures var r := Act(g, i, action).value;
            && ChipsOf(r.players) == ChipsOf(g.players)
            && Sum(Stacks(r.players)) <= Sum(Stacks(g.players))
            && (Sum(Stacks(r.players)) == Sum(Stacks(g.players)) ==> r.need == g.need - {i} && i in g.need)
  {
    ActMoves(g, i, action);
    var r := Act(g, i, action).value;
    SeatUpdate(g.players, i, r.players[i]);
  }

  // ------------------------------------------------- rounds and streets

  /** A round opens soundly, and asks somebody as soon as two seats can act. */
  lemma OpenRoundOk(g: Game, first: nat)
    requires BetsOk(g) && first < |g.players|
    ensures RoundOk(OpenRound(g, first))
    ensures |Movers(g.players)| >= 2 ==> OpenRound(g, first).actor.Some?
  {
    var r, n := OpenRound(g, first), |g.players|;
    if r.need != {} {
      var s :| s in r.need;
      SeekNearest(r.need, first, n, n, s);
      SeekSound(r.need, first, n, n);
    }
  }

  lemma ClearBetsChips(ps: seq<Player>)
    ensures Stacks(ClearBets(ps)) == Stacks(ps) && Lives(ClearBets(ps)) == Lives(ps) && Deads(ClearBets(ps)) == Deads(ps)
    ensures Movers(ClearBets(ps)) == Movers(ps) && ContestedSeats(ClearBets(ps)) == ContestedSeats(ps)
  {
  }

  lemma DealStreetOk(g: Game)
    requires BetsOk(g) && DealCount(g.street) <= |g.deck|
    ensures BetsOk(DealStreet(g))
  {
  }

  /** The next street opens soundly and moves no chips. */
  lemma NextStreetOk(g: Game)
    requires BetsOk(g) && DealCount(g.street) <= |g.deck|
    ensures BetsOk(NextStreet(g)) && (g.street != River ==> RoundOk(NextStreet(g)))
    ensures g.street != River && |Movers(g.players)| >= 2 ==> NextStreet(g).actor.Some?
  {
    ClearBetsChips(g.players);
    DealStreetOk(g);
    if g.street != River {
      var d := DealStreet(g);
      OpenRoundOk(d.(events := g.events + [BoardDealt(d.street, d.board)]), NextSeat(g.button, |g.players|));
    }
  }

  // ------------------------------------------------------ a new hand

  /** Between hands: chips are only in stacks. */
  predicate IdleOk(g: Game) {
    && ConfigOk(g.cfg) && |g.players| >= 2 && g.button < |g.players|
    && (g.bbSeat.Some? ==> g.bbSeat.value < |g.players| && g.sbSeat.Some? && g.sbSeat.value < |g.players|)
    && forall i :: 0 <= i < |g.players| ==>
         g.players[i].stack >= 0 && g.players[i].totalLive == 0 && g.players[i].totalDead == 0
  }

  predicate SeatsOk(ps: seq<Player>) {
    forall i :: 0 <= i < |ps| ==> SeatOk(ps[i])
  }

  /** Posting moves chips inside seats: the seats stay sound, the total stays, nobody joins or leaves. */
  predicate Posted(g: Game, r: Game) {
    && SeatsOk(r.players) && ChipsOf(r.players) == ChipsOf(g.players)
    && |r.players| == |g.players|
    && forall i :: 0 <= i < |g.players| ==>
         r.players[i].hole == g.players[i].hole && r.players[i].inSeat == g.players[i].inSeat
         && r.players[i].folded == g.players[i].folded
  }

  lemma PostKeeps(g: Game, i: nat, amount: int)
    requires i < |g.players| && SeatsOk(g.players) && g.players[i].inSeat && amount >= 0
    ensures Posted(g, Post(g, i, amount))
    ensures Post(g, i, amount).players[i].bet <= g.players[i].bet + amount
  {
    SeatUpdate(g.players, i, Post(g, i, amount).players[i]);
  }

  lemma PostDeadKeeps(g: Game, i: nat, amount: int)
    requires i < |g.players| && SeatsOk(g.players) && g.players[i].inSeat && amount >= 0
    ensures Posted(g, PostDead(g, i, amount))
    ensures PostDead(g, i, amount).players[i].bet == g.players[i].bet
  {
    SeatUpdate(g.players, i, PostDead(g, i, amount).players[i]);
  }

  lemma PostSmallKeeps(g: Game)
    requires ConfigOk(g.cfg) && SeatsOk(g.players) && g.sbSeat.Some? && g.sbSeat.value < |g.players|
    ensures Posted(g, PostSmall(g))
    ensures forall i: nat :: i < |g.players| ==>
              PostSmall(g).players[i].bet <= g.players[i].bet + (if g.sbSeat == Some(i) then g.cfg.sb else 0)
  {
    if g.players[g.sbSeat.value].inSeat { PostKeeps(g, g.sbSeat.value, g.cfg.sb); }
  }

  lemma PostBigKeeps(g: Game)
    requires ConfigOk(g.cfg) && SeatsOk(g.players) && g.bbSeat.Some? && g.bbSeat.value < |g.players|
    requires g.players[g.bbSeat.value].inSeat
    ensures Posted(g, PostBig(g))
    ensures forall i: nat :: i < |g.players| ==>
              PostBig(g).players[i].bet <= g.players[i].bet + (if g.bbSeat == Some(i) then g.cfg.bb else 0)
  {
    PostKeeps(g, g.bbSeat.value, g.cfg.bb);
    if g.cfg.bbAnte { PostDeadKeeps(Post(g, g.bbSeat.value, g.cfg.bb), g.bbSeat.value, g.cfg.bb); }
  }

  lemma ClearedKeeps(g: Game, deck: seq<Evaluator.Card>)
    requires IdleOk(g) && Startable(g)
    ensures SeatsOk(Cleared(g, deck).players) && ChipsOf(Cleared(g, deck).players) == ChipsOf(g.players)
    ensures forall i: nat :: i < |g.players| ==>
              var p := Cleared(g, deck).players[i];
              p.bet == 0 && p.inSeat == (i in WithChips(g.players)) && p.folded == !p.inSeat && p.hole == []
  {
    var ps := ResetAll(g.players);
    assert Stacks(ps) == Stacks(g.players);
    assert Lives(ps) == Lives(g.players);
    assert Deads(ps) == Deads(g.players);
  }

  lemma {:induction false} MaxBetAbove(ps: seq<Player>)
    ensures forall i :: 0 <= i < |ps| ==> ps[i].bet <= MaxBet(ps)
  {
    if |ps| > 0 { MaxBetAbove(ps[..|ps| - 1]); }
  }

  lemma {:induction false} MaxBetBelow(ps: seq<Player>, b: int)
    requires b >= 0 && forall i :: 0 <= i < |ps| ==> ps[i].bet <= b
    ensures MaxBet(ps) <= b
  {
    if |ps| > 0 { MaxBetBelow(ps[..|ps| - 1], b); }
  }

  /** Dealing changes the hole cards only. */
  lemma {:induction false} DealOneKeeps(d: Deal, order: seq<nat>)
    requires Seats(order, |d.players|) && |order| <= |d.deck|
    ensures forall i :: 0 <= i < |d.players| ==>
              DealOne(d, order).players[i] == d.players[i].(hole := DealOne(d, order).players[i].hole)
    decreases |order|
  {
    if |order| > 0 {
      var i, k := order[0], |d.deck| - 1;
      DealOneKeeps(Deal(d.players[i := d.players[i].(hole := d.players[i].hole + [d.deck[k]])], d.deck[..k]), order[1..]);
    }
  }

  lemma DealHolesKeeps(g: Game, live: set<nat>)
    requires g.button < |g.players| && |g.deck| >= 2 * |g.players|
    ensures forall i :: 0 <= i < |g.players| ==>
              DealHoles(g, live).players[i] == g.players[i].(hole := DealHoles(g, live).players[i].hole)
  {
    var n := |g.players|;
    var order := Collect(live, NextSeat(g.button, n), n, n);
    CollectBound(live, NextSeat(g.button, n), n, n);
    DealOneKeeps(Deal(g.players, g.deck), order);
    DealOneKeeps(DealOne(Deal(g.players, g.deck), order), order);
  }

  lemma SameButHoles(ps: seq<Player>, qs: seq<Player>)
    requires |ps| == |qs| && forall i :: 0 <= i < |ps| ==> qs[i] == ps[i].(hole := qs[i].hole)
    ensures Stacks(ps) == Stacks(qs) && Lives(ps) == Lives(qs) && Deads(ps) == Deads(qs)
  {
  }

  /** A cleared table: nobody has bet, and the big blind's seat is in the hand. */
  predicate ClearTable(g: Game) {
    && ConfigOk(g.cfg) && |g.players| >= 2 && g.button < |g.players| && SeatsOk(g.players) && g.street == Preflop
    && g.minRaise == g.cfg.bb
    && g.sbSeat.Some? && g.sbSeat.value < |g.players| && g.bbSeat.Some? && g.bbSeat.value < |g.players|
    && g.players[g.bbSeat.value].inSeat
    && forall i :: 0 <= i < |g.players| ==> g.players[i].bet == 0
  }

  lemma BlindsPosted(g: Game)
    requires ClearTable(g)
    ensures var r := PostBig(PostSmall(g));
            && Posted(g, r)
            && forall i: nat :: i < |g.players| ==>
                 r.players[i].bet <= (if g.sbSeat == Some(i) then g.cfg.sb else 0) + (if g.bbSeat == Some(i) then g.cfg.bb else 0)
  {
    hide PostSmall, PostBig, SeatOk, ChipsOf;
    PostSmallKeeps(g);
    PostBigKeeps(PostSmall(g));
  }

  lemma BringInOk(g: Game)
    requires ClearTable(g)
    ensures BetsOk(BringIn(PostBig(PostSmall(g)))) && Posted(g, BringIn(PostBig(PostSmall(g))))
    ensures g.sbSeat != g.bbSeat ==> BringIn(PostBig(PostSmall(g))).currentBet == g.cfg.bb
  {
    hide PostSmall, PostBig, MaxBet, SeatOk, ChipsOf;
    BlindsPosted(g);
    var ps := PostBig(PostSmall(g)).players;
    MaxBetAbove(ps);
    if g.sbSeat != g.bbSeat { MaxBetBelow(ps, g.cfg.bb); }
  }

  lemma DealtOk(g: Game, live: set<nat>, first: nat)
    requires BetsOk(g) && |g.deck| >= 2 * |g.players| && first < |g.players|
    ensures var r := OpenRound(DealHoles(g, live), first);
            RoundOk(r) && ChipsOf(r.players) == ChipsOf(g.players) && ContestedSeats(r.players) == ContestedSeats(g.players)
  {
    var dealt := DealHoles(g, live);
    DealHolesKeeps(g, live);
    SameButHoles(g.players, dealt.players);
    OpenRoundOk(dealt, first);
  }

  lemma ClearedOk(g: Game, deck: seq<Evaluator.Card>)
    requires IdleOk(g) && Startable(g)
    ensures ClearTable(Cleared(g, deck)) && ChipsOf(Cleared(g, deck).players) == ChipsOf(g.players)
    ensures ContestedSeats(Cleared(g, deck).players) == WithChips(g.players)
  {
    HasSeat(WithChips(g.players), |g.players|);
    AdvanceFits(WithChips(g.players), PositionsOf(g), |g.players|);
    ClearedKeeps(g, deck);
  }

  lemma PostedContested(g: Game, r: Game)
    requires Posted(g, r)
    ensures ContestedSeats(r.players) == ContestedSeats(g.players)
  {
  }

  /** A hand starts soundly: no chip is lost, and exactly the seats with chips are in it. */
  lemma StartedOk(g: Game, deck: seq<Evaluator.Card>)
    requires IdleOk(g) && Startable(g) && |deck| >= 2 * |g.players|
    ensures RoundOk(StartHand(g, deck)) && ChipsOf(StartHand(g, deck).players) == ChipsOf(g.players)
    ensures ContestedSeats(StartHand(g, deck).players) == WithChips(g.players)
  {
    var live, g1 := WithChips(g.players), Cleared(g, deck);
    ClearedOk(g, deck);
    BringInOk(g1);
    var posted := BringIn(PostBig(PostSmall(g1)));
    PostedContested(g1, posted);
    HasSeat(live, |g.players|);
    DealtOk(posted, live, FirstToAct(posted, live));
  }
}
