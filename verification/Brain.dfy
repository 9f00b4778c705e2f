/** The computer player's choices (`Brain` in holdem/engine.py), whatever it draws, reads or guesses. */
module Brain {
  import opened Pots
  import opened Settlement
  import opened Game
  import opened Betting
  import opened Cashout

  datatype Style = Style(open: real, call: real, three: real, agg: real, cbet: real, bluff: real, maniac: bool)

  /** What a decision depends on besides the hand: the estimate of the hand, the seat's manner, and the random draws. */
  datatype Mind = Mind(style: Style, level: int, strength: real, late: bool, limpers: int, draws: seq<real>)

  /** The `k`-th draw. */
  function Draw(m: Mind, k: nat): real {
    if k < |m.draws| then m.draws[k] else 0.0
  }

  /** `_size`: into the legal range, and all the way when little would be left. */
  function Sized(g: Game, l: LegalMoves, target: int): (t: int) {
    var t := Max(l.minTo, Min(target, l.maxTo));
    if l.maxTo - t < g.cfg.bb then l.maxTo else t
  }

  function RaiseBy(g: Game, l: LegalMoves, target: int): Action {
    Raise(Sized(g, l, target))
  }

  /** `_preflop`. */
  function Preflop(g: Game, i: nat, m: Mind): (a: Action)
    requires i < |g.players|
  {
    var l, p := Legal(g, i), g.players[i];
    var shift := if m.level == 1 || !m.late then 0.0 else if m.level == 3 then -1.5 * 1.4 else -1.5;
    var openAt, callAt, threeAt := m.style.open + shift, m.style.call + shift, m.style.three + shift;
    var raised := g.currentBet > g.cfg.bb;
    var short := p.stack as real <= 12.0 * Max(1, g.cfg.bb) as real;
    if short && l.canRaise && (m.strength >= callAt + 1.0 || (m.strength >= callAt - 1.0 && m.late)) then Raise(l.maxTo)
    else if l.toCall == 0 then
      if m.strength >= openAt + 1.0 && l.canRaise && Draw(m, 0) < 0.85 then
        RaiseBy(g, l, Max(Trunc(g.cfg.bb as real * (2.5 + m.limpers as real)), l.minTo))
      else if l.canRaise && Draw(m, 1) < m.style.bluff * 0.5 then RaiseBy(g, l, Trunc(g.cfg.bb as real * 2.5))
      else Call
    else if m.strength >= threeAt && l.canRaise && Draw(m, 0) < m.style.agg + 0.15 then
      RaiseBy(g, l, Trunc(g.currentBet as real * (if raised then 2.6 else 3.0)))
    else if l.pot + l.toCall > 0
         && m.strength >= callAt + (if raised then 2.5 else 0.0) + l.toCall as real / (l.pot + l.toCall) as real * 6.0 then Call
    else if l.toCall <= g.cfg.bb && m.strength >= callAt - 2.0 && Draw(m, 1) < 0.6 then Call
    else if Draw(m, 2) < m.style.bluff * 0.25 && l.canRaise then RaiseBy(g, l, Trunc(g.currentBet as real * 3.0))
    else Fold
  }

  /** The rest of `decide`, with the estimated share of the pot as the strength. */
  function Postflop(g: Game, i: nat, m: Mind): (a: Action)
    requires i < |g.players|
  {
    var l, eq := Legal(g, i), m.strength;
    var pot := l.pot as real;
    if l.toCall == 0 then
      var chance := if eq > 0.78 then 0.9 * m.style.agg + 0.1
                    else if eq > 0.58 then m.style.cbet
                    else if eq > 0.42 then m.style.cbet * 0.4
                    else m.style.bluff;
      if l.canRaise && Draw(m, 0) < chance then
        var part := if eq > 0.7 then 0.75 else if eq > 0.45 then 0.6 else 0.55;
        RaiseBy(g, l, Trunc(pot * (if m.style.maniac then part * 1.3 else part)))
      else Call
    else if l.pot + l.toCall <= 0 then Fold
    else
      var odds := l.toCall as real / (l.pot + l.toCall) as real;
      if l.canRaise && eq > 0.66 && eq - odds > 0.12 && Draw(m, 0) < m.style.agg then
        RaiseBy(g, l, Trunc(g.currentBet as real + pot * (if eq > 0.8 then 0.85 else 0.65)))
      else if l.canRaise && eq < 0.45 && Draw(m, 1) < m.style.bluff * 0.35 then
        RaiseBy(g, l, Trunc(g.currentBet as real + pot * 0.7))
      else if eq >= odds + 0.02 then Call
      else if l.toCall as real <= pot * 0.12 && eq > 0.25 && Draw(m, 2) < 0.55 then Call
      else Fold
  }

  /** `decide`. */
  function Decide(g: Game, i: nat, m: Mind): (a: Action)
    requires i < |g.players|
  {
    if g.street == Street.Preflop then Preflop(g, i, m) else Postflop(g, i, m)
  }

  /** A choice the rules allow: a raise only where one is legal and in range, a fold only of a bet to call. */
  predicate Sensible(l: LegalMoves, a: Action) {
    match a
    case Fold => l.toCall != 0
    case Call => true
    case Raise(amount) => l.canRaise && l.minTo <= amount <= l.maxTo
  }

  lemma SizedFits(g: Game, l: LegalMoves, target: int)
    requires l.minTo <= l.maxTo
    ensures l.minTo <= Sized(g, l, target) <= l.maxTo
  {
  }

  lemma RangeNotEmpty(g: Game, i: nat)
    requires i < |g.players|
    ensures Legal(g, i).minTo <= Legal(g, i).maxTo
  {
  }

  lemma PreflopSensible(g: Game, i: nat, m: Mind)
    requires i < |g.players|
    ensures Sensible(Legal(g, i), Preflop(g, i, m))
  {
    hide Legal, Sized, Trunc, Draw;
    RangeNotEmpty(g, i);
    var l, a := Legal(g, i), Preflop(g, i, m);
    AllSizedFit(g, l);
  }

  lemma AllSizedFit(g: Game, l: LegalMoves)
    requires l.minTo <= l.maxTo
    ensures forall t :: l.minTo <= Sized(g, l, t) <= l.maxTo
  {
    forall t ensures l.minTo <= Sized(g, l, t) <= l.maxTo {
      SizedFits(g, l, t);
    }
  }

  lemma PostflopSensible(g: Game, i: nat, m: Mind)
    requires i < |g.players|
    ensures Sensible(Legal(g, i), Postflop(g, i, m))
  {
    hide Legal, Sized, Trunc, Draw;
    RangeNotEmpty(g, i);
    AllSizedFit(g, Legal(g, i));
  }

  /** Main result: on its turn the computer player's move is always accepted, and it never folds for free,
      whatever it draws and however it judges its hand. */
  lemma AlwaysAccepted(g: Game, i: nat, m: Mind)
    requires RoundOk(g) && g.actor == Some(i)
    ensures i < |g.players| && Act(g, i, Decide(g, i, m)).Ok?
    ensures Legal(g, i).toCall == 0 ==> Decide(g, i, m) != Fold
  {
    hide Preflop, Postflop, Legal, DoFold, DoCall, DoRaise, Finish;
    if g.street == Street.Preflop { PreflopSensible(g, i, m); } else { PostflopSensible(g, i, m); }
  }
}
