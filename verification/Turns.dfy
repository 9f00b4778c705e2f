/** Whose turn it is, what that seat may do, and when a hand moves on (holdem/engine.py, holdem/embedding.py). */
module Turns {
  import opened Pots
  import opened Settlement
  import opened Game
  import opened Betting
  import opened Dealing
  import opened Table

  // -------------------------------------------------------- who acts next

  /** `s` is the first of `S` met walking on from seat `i`. */
  ghost predicate NextAfter(S: set<nat>, i: nat, s: nat, n: nat) {
    i < n && s in S && s < n && forall w :: w in S ==> w < n && Steps(i, s, n) <= Steps(i, w, n)
  }

  /** After a move the seat to act is the next one still asked, walking on from the seat that moved; nobody only if nobody
      is asked. */
  lemma NextActor(g: Game, i: int, action: Action)
    requires RoundOk(g) && Act(g, i, action).Ok?
    ensures var r := Act(g, i, action).value;
            && (r.actor.None? <==> r.need == {})
            && (r.actor.Some? ==> 0 <= i && NextAfter(r.need, i, r.actor.value, |r.players|))
  {
    hide Act, Applied, BetsOk, ActedOk, ReopenOk;
    ActIs(g, i, action);
    ActKeepsRound(g, i, action);
    ActMoves(g, i, action);
    PassedTo(Applied(g, i, action), i);
  }

  lemma PassedTo(g: Game, i: nat)
    requires i < |g.players|
    ensures var r, n := Finish(g, i), |g.players|;
            (exists s :: s in r.need && s < n) && (forall s :: s in r.need ==> s < n) ==>
              r.actor.Some? && NextAfter(r.need, i, r.actor.value, n)
  {
    var r, n := Finish(g, i), |g.players|;
    if (exists s :: s in r.need && s < n) && (forall s :: s in r.need ==> s < n) {
      NextInFinds(r.need, i, n);
    }
  }

  /** Who is still asked: after a raise every other seat that can act, otherwise whoever was asked before. */
  lemma AskedNext(g: Game, i: nat, action: Action)
    requires RoundOk(g) && Act(g, i, action).Ok?
    ensures var r := Act(g, i, action).value;
            r.need == if action.Raise? then Movers(r.players) - {i} else g.need - {i}
  {
    if action.Raise? {
      RaiseAsks(g, i, action.amount);
    }
  }

  lemma RaiseAsks(g: Game, i: nat, amount: int)
    requires RoundOk(g) && Act(g, i, Raise(amount)).Ok?
    ensures var r := Act(g, i, Raise(amount)).value; r.need == Movers(r.players) - {i}
  {
    hide ActedOk, ReopenOk, Legal, Restricted;
    LegalRaise(g, i, amount);
    RaiseRaises(g, i, amount);
    var target := Target(Legal(g, i), amount);
    RaiseBets(g, i, target);
    EverybodyAsked(g, i, target);
  }

  lemma EverybodyAsked(g: Game, i: nat, target: int)
    requires RoundOk(g) && g.actor == Some(i) && g.currentBet < target <= g.players[i].bet + g.players[i].stack
    ensures var r := DoRaise(g, i, target); r.need - {i} == Movers(r.players) - {i}
  {
    hide ActedOk, ReopenOk, Restricted;
    var r := DoRaise(g, i, target);
    assert r.currentBet == target == r.players[i].bet;
    assert forall j: nat :: j < |g.players| && j != i ==> r.players[j] == g.players[j] && r.players[j].bet < target;
  }

  // ------------------------------------------------------- what it may do

  /** The seat may raise: it has not acted, or the bet has grown by a full raise since it did, and it has chips beyond a call. */
  predicate MayRaise(g: Game, i: nat)
    requires i < |g.players|
  {
    && (i in g.actedAt ==> g.currentBet - g.players[i].bet >= g.minRaise)
    && g.players[i].bet + g.players[i].stack > g.currentBet
    && (g.cfg.structure == FixedLimit ==> g.raises < 4)
  }

  /** The smallest raise: a full one, or all chips if they do not reach that far. */
  function LeastTo(g: Game, i: nat): (t: int)
    requires i < |g.players|
  {
    var all, unit := g.players[i].bet + g.players[i].stack, if g.street in {Preflop, Flop} then g.cfg.bb else 2 * g.cfg.bb;
    Min(g.currentBet + (if g.cfg.structure == FixedLimit then unit else g.minRaise), all)
  }

  /** The largest: all chips; the pot after a call on top of the bet, if that is less, in Pot-Limit; the one size in Fixed-Limit. */
  function MostTo(g: Game, i: nat): (t: int)
    requires i < |g.players|
  {
    var p := g.players[i];
    match g.cfg.structure
    case NoLimit => p.bet + p.stack
    case PotLimit => Min(p.bet + p.stack, Max(LeastTo(g, i), g.currentBet + PotOf(g.players) + (g.currentBet - p.bet)))
    case FixedLimit => LeastTo(g, i)
  }

  lemma LegalIs(g: Game, i: nat)
    requires RoundOk(g) && g.actor == Some(i)
    ensures i < |g.players|
    ensures var l, p := Legal(g, i), g.players[i];
            && l.toCall == Min(g.currentBet, p.bet + p.stack) - p.bet && (l.canCheck <==> p.bet == g.currentBet)
            && (l.canRaise <==> MayRaise(g, i))
            && (l.canRaise ==> l.minTo == LeastTo(g, i) <= l.maxTo == MostTo(g, i))
            && l.pot == PotOf(g.players) && l.yourBet == p.bet
  {
    hide PotOf;
    assert CanAct(g.players[i]);
    assert SeatOk(g.players[i]) && g.players[i].bet <= g.currentBet;
    assert i in g.noRaise <==> i in g.actedAt && g.currentBet - g.actedAt[i] < g.minRaise;
    PotSign(g);
  }

  lemma PotSign(g: Game)
    requires BetsOk(g)
    ensures PotOf(g.players) >= 0
  {
    StackBounds(g);
  }

  /** The engine takes a raise exactly if the seat may raise and the target is in the range of its structure; Fixed-Limit
      has one size and ignores the target. */
  lemma RaiseTaken(g: Game, i: nat, amount: int)
    requires RoundOk(g) && g.actor == Some(i)
    ensures i < |g.players|
    ensures Act(g, i, Raise(amount)).Ok? <==>
              MayRaise(g, i) && (g.cfg.structure == FixedLimit || LeastTo(g, i) <= amount <= MostTo(g, i))
  {
    hide Legal, PotOf;
    LegalIs(g, i);
    assert CanAct(g.players[i]);
  }

  /** At the table a command is taken exactly from the player whose turn it is: any fold or call, and a raise in range. */
  lemma CommandTaken(t: Table, who: string, c: Command)
    requires TableOk(t)
    ensures CommandCall(t, who, c).Done? <==>
              && t.phase == InHand && t.game.actor.Some? && t.game.actor.value < |t.ids| && t.ids[t.game.actor.value] == who
              && (c.RaiseTo? ==> t.game.actor.value < |t.game.players| && MayRaise(t.game, t.game.actor.value)
                                 && LeastTo(t.game, t.game.actor.value) <= c.amount <= MostTo(t.game, t.game.actor.value))
  {
    hide CommandCall, Legal, CardsOk, BetsOk, LeastTo, MostTo, MayRaise;
    if CommandCall(t, who, c).Done? { CommandIs(t, who, c); }
    if t.phase == InHand {
      NeverStuck(t, c);
      LegalIs(t.game, t.game.actor.value);
      ActorSeated(t);
    }
  }

  lemma ActorSeated(t: Table)
    requires TableOk(t) && t.phase == InHand
    ensures t.game.actor.Some? && t.game.actor.value < |t.game.players| == |t.ids|
  {
    hide CardsOk;
  }

  // ------------------------------------------------------ what a move does

  /** A fold changes nothing but the seat's folding; a call brings it to the bet or all-in. */
  lemma MoveDoes(g: Game, i: nat, action: Action)
    requires RoundOk(g) && Act(g, i, action).Ok?
    ensures i < |g.players|
    ensures var p, q := g.players[i], Act(g, i, action).value.players[i];
            && (action == Fold ==> q == p.(folded := true))
            && (action == Call ==> q.bet == Min(g.currentBet, p.bet + p.stack) && q == Committed(p, q.bet - p.bet))
            && (action.Raise? ==> q.bet == (if g.cfg.structure == FixedLimit then LeastTo(g, i) else action.amount)
                                  && q == Committed(p, q.bet - p.bet))
  {
    hide PotOf, TurnsOk, ActedOk, Restricted, Behind, Movers;
    ActIs(g, i, action);
    var p := g.players[i];
    assert SeatOk(p) && p.bet <= g.currentBet;
    match action
    case Fold =>
    case Call => CallDoes(g, i);
    case Raise(amount) => RaiseDoes(g, i, amount);
  }

  lemma CallDoes(g: Game, i: nat)
    requires i < |g.players| && SeatOk(g.players[i]) && g.players[i].bet <= g.currentBet && CanAct(g.players[i])
    ensures var p, q := g.players[i], DoCall(g, i).players[i];
            q.bet == Min(g.currentBet, p.bet + p.stack) && q == Committed(p, q.bet - p.bet)
  {
    hide PotOf;
  }

  lemma RaiseDoes(g: Game, i: nat, amount: int)
    requires RoundOk(g) && Act(g, i, Raise(amount)).Ok?
    ensures var p, q := g.players[i], DoRaise(g, i, Target(Legal(g, i), amount)).players[i];
            q.bet == (if g.cfg.structure == FixedLimit then LeastTo(g, i) else amount) && q == Committed(p, q.bet - p.bet)
  {
    hide PotOf, TurnsOk, ActedOk, ReopenOk, Restricted, Behind, Movers;
    LegalRaise(g, i, amount);
    RaiseRaises(g, i, amount);
    LegalOfRaise(g, i, amount);
  }

  lemma LegalOfRaise(g: Game, i: nat, amount: int)
    requires RoundOk(g) && Act(g, i, Raise(amount)).Ok?
    ensures g.cfg.structure == FixedLimit ==> Target(Legal(g, i), amount) == LeastTo(g, i)
  {
    hide PotOf, Legal;
    LegalIs(g, i);
  }

  /** Chips moved from the stack into the live bet. */
  function Committed(p: Player, chips: int): (q: Player) {
    p.(stack := p.stack - chips, bet := p.bet + chips, totalLive := p.totalLive + chips, allIn := p.stack - chips == 0)
  }

  /** The event of a move. */
  function Told(g: Game, r: Game, i: nat, action: Action): (e: Event)
    requires i < |g.players| == |r.players|
  {
    var p, q := g.players[i], r.players[i];
    var chips := p.stack - q.stack;
    var move := match action
      case Fold => Folded
      case Call => if chips == 0 then Checked else Called
      case Raise(_) => if g.currentBet == 0 then Bet else Raised;
    Acted(g.street, i, move, chips, q.bet, chips != 0 && q.stack == 0,
          action.Raise? && q.bet - g.currentBet >= g.minRaise, PotOf(r.players))
  }

  /** Each move tells everybody exactly what happened: who, what, how many chips, to which bet, and the pot after it. */
  lemma MoveTells(g: Game, i: nat, action: Action)
    requires RoundOk(g) && Act(g, i, action).Ok?
    ensures var r := Act(g, i, action).value;
            && i < |g.players| == |r.players|
            && r.events == g.events + [Told(g, r, i, action)]
            && r.riverAggr == if action.Raise? && g.street == River then Some(i) else g.riverAggr
  {
    hide PotOf, TurnsOk, ActedOk, ReopenOk, Legal, Applied, Act;
    MoveDoes(g, i, action);
    ActIs(g, i, action);
    if action.Raise? { RaiseRaises(g, i, action.amount); }
    ActorAble(g, i, action);
    AppliedTells(g, i, action);
  }

  lemma ActorAble(g: Game, i: nat, action: Action)
    requires RoundOk(g) && Act(g, i, action).Ok?
    ensures i < |g.players| && SeatOk(g.players[i]) && CanAct(g.players[i])
  {
    hide DoFold, DoCall, DoRaise, Finish, Legal;
  }

  lemma AppliedTells(g: Game, i: nat, action: Action)
    requires i < |g.players| && SeatOk(g.players[i]) && CanAct(g.players[i])
    requires var r := Applied(g, i, action);
             && |r.players| == |g.players|
             && (!action.Raise? ==> action == Fold || r.players[i] == Committed(g.players[i], r.players[i].bet - g.players[i].bet))
             && (action.Raise? ==> r.players[i] == Committed(g.players[i], r.players[i].bet - g.players[i].bet)
                                   && r.players[i].bet == Target(Legal(g, i), action.amount) > g.currentBet)
    ensures var r := Applied(g, i, action);
            && r.events == g.events + [Told(g, r, i, action)]
            && r.riverAggr == if action.Raise? && g.street == River then Some(i) else g.riverAggr
  {
    hide PotOf, Restricted, Behind, Movers;
    CallMatches(g, i);
  }

  lemma CallMatches(g: Game, i: nat)
    requires i < |g.players| && SeatOk(g.players[i]) && CanAct(g.players[i])
    ensures DoCall(g, i).players[i].stack == g.players[i].stack - Legal(g, i).toCall
    ensures Legal(g, i).toCall != 0 ==> (DoCall(g, i).players[i].allIn <==> DoCall(g, i).players[i].stack == 0)
  {
    hide PotOf;
  }
}
