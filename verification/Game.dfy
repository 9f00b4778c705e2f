/** The state of a hand and the moves of `Engine` (holdem/engine.py), as functions of that state. */
module Game {
  import opened Sums
  import opened Evaluator
  import opened Pots
  import opened Settlement
  import opened Awards

  datatype Structure = NoLimit | PotLimit | FixedLimit

  datatype Street = Idle | Preflop | Flop | Turn | River | Showdown

  datatype Config = Config(sb: int, bb: int, structure: Structure, bbAnte: bool)

  datatype Player = Player(
    stack: int, hole: seq<Card>, folded: bool, allIn: bool, inSeat: bool,
    bet: int, totalLive: int, totalDead: int, won: int)

  datatype Move = Checked | Folded | Called | Bet | Raised

  /** What `emit` records for the clients while a hand is played. */
  datatype Event =
    | HandStarted(handNo: nat, sb: int, bb: int, ante: int)
    | BlindDead
    | BlindPosted(seat: nat, amount: int, allIn: bool, dead: bool, potAfter: int)
    | Acted(street: Street, seat: nat, move: Move, amount: int, to: int, allIn: bool, full: bool, potAfter: int)
    | BoardDealt(street: Street, board: seq<Card>)

  datatype Game = Game(
    cfg: Config, players: seq<Player>, button: nat, bbSeat: Option<nat>, sbSeat: Option<nat>,
    deck: seq<Card>, board: seq<Card>, board2: Option<seq<Card>>, street: Street,
    currentBet: int, minRaise: int, need: set<nat>, actor: Option<nat>,
    handNo: nat, raises: nat, noRaise: set<nat>, actedAt: map<nat, int>,
    riverAggr: Option<nat>, events: seq<Event>)

  // ------------------------------------------------------- helpers

  function Max(a: int, b: int): int {
    if a >= b then a else b
  }

  predicate CanAct(p: Player) {
    p.inSeat && !p.folded && !p.allIn && p.stack > 0
  }

  predicate IsContested(p: Player) {
    p.inSeat && !p.folded
  }

  function Movers(ps: seq<Player>): (r: set<nat>) {
    set i: nat | i < |ps| && CanAct(ps[i])
  }

  function ContestedSeats(ps: seq<Player>): (r: set<nat>) {
    set i: nat | i < |ps| && IsContested(ps[i])
  }

  function Stacks(ps: seq<Player>): (r: seq<int>)
    ensures |r| == |ps| && forall i :: 0 <= i < |r| ==> r[i] == ps[i].stack
  {
    seq(|ps|, i requires 0 <= i < |ps| => ps[i].stack)
  }

  function Lives(ps: seq<Player>): (r: seq<int>)
    ensures |r| == |ps| && forall i :: 0 <= i < |r| ==> r[i] == ps[i].totalLive
  {
    seq(|ps|, i requires 0 <= i < |ps| => ps[i].totalLive)
  }

  function Deads(ps: seq<Player>): (r: seq<int>)
    ensures |r| == |ps| && forall i :: 0 <= i < |r| ==> r[i] == ps[i].totalDead
  {
    seq(|ps|, i requires 0 <= i < |ps| => ps[i].totalDead)
  }

  /** `Engine.pot`. */
  function PotOf(ps: seq<Player>): (t: int) {
    Sum(Lives(ps)) + Sum(Deads(ps))
  }

  /** All chips: behind, live and dead. */
  function ChipsOf(ps: seq<Player>): (t: int) {
    Sum(Stacks(ps)) + PotOf(ps)
  }

  /** The first of `S` among `steps` seats from `j` on, walking forward. */
  function Seek(S: set<nat>, j: nat, n: nat, steps: nat): (r: Option<nat>)
    requires j < n
    decreases steps, S
  {
    if steps == 0 then None
    else if j in S then Some(j)
    else Seek(S, NextSeat(j, n), n, steps - 1)
  }

  /** Steps to walk forward from seat `j` to seat `w`, zero if it is the same seat. */
  function Dist(j: nat, w: nat, n: nat): (d: int)
    requires j < n && w < n
    ensures 0 <= d < n
  {
    if w >= j then w - j else w - j + n
  }

  lemma {:induction false} SeekSound(S: set<nat>, j: nat, n: nat, steps: nat)
    requires j < n
    ensures Seek(S, j, n, steps).Some? ==> Seek(S, j, n, steps).value in S && Seek(S, j, n, steps).value < n
    decreases steps
  {
    if steps > 0 && j !in S { SeekSound(S, NextSeat(j, n), n, steps - 1); }
  }

  /** The seat found is the nearest one. */
  lemma {:induction false} SeekNearest(S: set<nat>, j: nat, n: nat, steps: nat, w: nat)
    requires j < n && w < n && w in S && Dist(j, w, n) < steps
    ensures Seek(S, j, n, steps).Some?
    ensures Seek(S, j, n, steps).value < n && Dist(j, Seek(S, j, n, steps).value, n) <= Dist(j, w, n)
    decreases steps
  {
    if j !in S {
      var k := NextSeat(j, n);
      SeekNearest(S, k, n, steps - 1, w);
      SeekSound(S, k, n, steps - 1);
      var v := Seek(S, k, n, steps - 1).value;
      assert Dist(j, w, n) == Dist(k, w, n) + 1;
      assert Dist(j, v, n) == Dist(k, v, n) + 1;
    }
  }

  predicate SeatIn(S: set<nat>, n: nat) {
    exists s :: s in S && s < n
  }

  lemma HasSeat(S: set<nat>, n: nat)
    requires S != {} && forall s :: s in S ==> s < n
    ensures SeatIn(S, n)
  {
    var s :| s in S;
  }

  /** `_next`: the first of `S` after seat `i`, coming back to `i` last. */
  function NextIn(S: set<nat>, i: nat, n: nat): (r: nat)
    requires i < n && SeatIn(S, n)
    ensures r in S && r < n
    ensures forall w :: w in S && w < n ==> Steps(i, r, n) <= Steps(i, w, n)
  {
    var k := NextSeat(i, n);
    NextInFinds(S, i, n);
    Seek(S, k, n, n).value
  }

  lemma NextInFinds(S: set<nat>, i: nat, n: nat)
    requires i < n && SeatIn(S, n)
    ensures var f := Seek(S, NextSeat(i, n), n, n);
            f.Some? && f.value in S && f.value < n && forall w :: w in S && w < n ==> Steps(i, f.value, n) <= Steps(i, w, n)
  {
    var k := NextSeat(i, n);
    SeekSound(S, k, n, n);
    var s :| s in S && s < n;
    SeekNearest(S, k, n, n, s);
    var r := Seek(S, k, n, n).value;
    forall w | w in S && w < n ensures Steps(i, r, n) <= Steps(i, w, n) {
      SeekNearest(S, k, n, n, w);
    }
  }

  // ------------------------------------------------------ legal moves

  datatype LegalMoves = LegalMoves(
    toCall: int, canCheck: bool, canRaise: bool, minTo: int, maxTo: int, pot: int, yourBet: int)

  /** The fixed bet size of a street. */
  function Unit(cfg: Config, street: Street): (u: int) {
    if street == Preflop || street == Flop then cfg.bb else 2 * cfg.bb
  }

  function Legal(g: Game, i: nat): (r: LegalMoves)
    requires i < |g.players|
  {
    var p := g.players[i];
    var toCall := Min(Max(0, g.currentBet - p.bet), p.stack);
    var allIn := p.bet + p.stack;
    var free := p.stack > toCall && i !in g.noRaise;
    var low := if g.currentBet == 0 then Min(p.bet + g.cfg.bb, allIn) else Min(g.currentBet + g.minRaise, allIn);
    var fixed := Min(g.currentBet + Unit(g.cfg, g.street), allIn);
    var potMax := g.currentBet + PotOf(g.players) + Max(0, g.currentBet - p.bet);
    var minTo := if g.cfg.structure == FixedLimit then fixed else low;
    var maxTo := match g.cfg.structure
      case FixedLimit => fixed
      case PotLimit => Min(allIn, Max(potMax, low))
      case NoLimit => allIn;
    var canRaise := free && !(g.cfg.structure == FixedLimit && g.raises >= 4);
    LegalMoves(toCall, toCall == 0, canRaise && maxTo > g.currentBet, Min(minTo, maxTo), maxTo, PotOf(g.players), p.bet)
  }

  // ------------------------------------------------------------ moves

  datatype Action = Fold | Call | Raise(amount: int)

  /** `_commit`: move chips from the stack to the bet, all-in when none are left. */
  function Commit(p: Player, amount: int): (r: Player) {
    var amt := Max(0, Min(amount, p.stack));
    p.(stack := p.stack - amt, bet := p.bet + amt, totalLive := p.totalLive + amt,
       allIn := p.allIn || p.stack - amt == 0)
  }

  /** The seat has acted: it leaves the list, and the action moves on. */
  function Finish(g: Game, i: nat): (r: Game)
    requires i < |g.players|
  {
    var need := g.need - {i};
    g.(actedAt := g.actedAt[i := g.players[i].bet], need := need,
       actor := Seek(need, NextSeat(i, |g.players|), |g.players|, |g.players|))
  }

  function DoFold(g: Game, i: nat): (r: Game)
    requires i < |g.players|
  {
    var ps := g.players[i := g.players[i].(folded := true)];
    g.(players := ps,
       events := g.events + [Acted(g.street, i, Folded, 0, ps[i].bet, false, false, PotOf(ps))])
  }

  function DoCall(g: Game, i: nat): (r: Game)
    requires i < |g.players|
  {
    var amt := Legal(g, i).toCall;
    var ps := if amt == 0 then g.players else g.players[i := Commit(g.players[i], amt)];
    g.(players := ps,
       events := g.events + [Acted(g.street, i, if amt == 0 then Checked else Called, amt, ps[i].bet,
                                   amt != 0 && ps[i].allIn, false, PotOf(ps))])
  }

  /** Seats a short all-in puts back on the list. */
  function Behind(ps: seq<Player>, i: nat, bet: int): (r: set<nat>) {
    set q | q in Movers(ps) && q != i && ps[q].bet < bet
  }

  /** Has the bet grown by a full raise since seat `q` acted? */
  predicate Reopened(actedAt: map<nat, int>, q: nat, bet: int, minRaise: int) {
    q in actedAt && bet - actedAt[q] >= minRaise
  }

  predicate StillShort(actedAt: map<nat, int>, q: nat, bet: int, minRaise: int) {
    q in actedAt && bet - actedAt[q] < minRaise
  }

  /** Seats that may not raise again after a short all-in: the bet has grown too little since they acted. */
  function Restricted(noRaise: set<nat>, behind: set<nat>, actedAt: map<nat, int>, bet: int, minRaise: int): (r: set<nat>) {
    (set q | q in noRaise && !(q in behind && Reopened(actedAt, q, bet, minRaise)))
    + (set q | q in behind && StillShort(actedAt, q, bet, minRaise))
  }

  /** Seat `i` has raised the bet: a full raise asks everybody again, a short all-in the seats behind. */
  function Grown(g: Game, i: nat, size: int, full: bool): (r: Game)
    requires i < |g.players|
  {
    var bet := g.players[i].bet;
    var g1 := g.(currentBet := bet, raises := g.raises + 1, riverAggr := if g.street == River then Some(i) else g.riverAggr);
    if full then g1.(minRaise := size, noRaise := {}, need := Movers(g.players))
    else
      var behind := Behind(g.players, i, bet);
      g1.(noRaise := Restricted(g.noRaise, behind, g.actedAt, bet, g.minRaise), need := g.need + behind)
  }

  /** A bet or raise to `target`, which commits chips. */
  function DoRaise(g: Game, i: nat, target: int): (r: Game)
    requires i < |g.players|
  {
    var add := target - g.players[i].bet;
    var ps := g.players[i := Commit(g.players[i], add)];
    var size := ps[i].bet - g.currentBet;
    var full := size >= g.minRaise;
    var g1 := g.(players := ps);
    var g2 := if ps[i].bet > g.currentBet then Grown(g1, i, size, full) else g1;
    g2.(events := g.events + [Acted(g.street, i, if g.currentBet == 0 then Bet else Raised, add, ps[i].bet,
                                    ps[i].allIn, full, PotOf(ps))])
  }

  /** The raise target the code settles on. */
  function Target(l: LegalMoves, amount: int): (t: int) {
    Max(Min(amount, l.maxTo), l.minTo)
  }

  /** `Engine.act`: one betting action, or a refusal that changes nothing. */
  function Act(g: Game, i: int, action: Action): (r: Outcome<Game>) {
    if !(0 <= i < |g.players|) || g.actor != Some(i) || !CanAct(g.players[i]) then Refused
    else
      match action
      case Fold => Ok(Finish(DoFold(g, i), i))
      case Call => Ok(Finish(DoCall(g, i), i))
      case Raise(amount) =>
        var l := Legal(g, i);
        if !l.canRaise then Refused
        else if g.cfg.structure != FixedLimit && !(l.minTo <= amount <= l.maxTo) then Refused
        else
          var target := Target(l, amount);
          if target - g.players[i].bet <= 0 then Ok(Finish(DoCall(g, i), i))
          else Ok(Finish(DoRaise(g, i, target), i))
  }

  // --------------------------------------------------------- streets

  /** `_open_round`: nobody is asked when at most one seat can act and owes nothing. */
  function OpenRound(g: Game, first: nat): (r: Game)
    requires first < |g.players|
  {
    var movers := Movers(g.players);
    var need := if |movers| < 2 && (forall i :: i in movers ==> g.players[i].bet == g.currentBet) then {} else movers;
    g.(noRaise := {}, actedAt := map[], need := need,
       actor := if need == {} then None else Seek(need, first, |g.players|, |g.players|))
  }

  function ClearBets(ps: seq<Player>): (r: seq<Player>)
    ensures |r| == |ps| && forall i :: 0 <= i < |r| ==> r[i] == ps[i].(bet := 0)
  {
    seq(|ps|, i requires 0 <= i < |ps| => ps[i].(bet := 0))
  }

  /** Cards dealt when leaving a street. */
  function DealCount(street: Street): (k: nat) {
    match street
    case Preflop => 3
    case Flop => 1
    case Turn => 1
    case _ => 0
  }

  function StreetAfter(street: Street): (r: Street) {
    match street
    case Preflop => Flop
    case Flop => Turn
    case Turn => River
    case River => Showdown
    case s => s
  }

  /** The last `k` cards, as `Deck.deal` takes them. */
  function TopCards(deck: seq<Card>, k: nat): (r: seq<Card>)
    requires k <= |deck|
  {
    deck[|deck| - k..]
  }

  /** Bets cleared, cards dealt, street named. */
  function DealStreet(g: Game): (r: Game)
    requires DealCount(g.street) <= |g.deck|
  {
    var k := DealCount(g.street);
    g.(players := ClearBets(g.players), currentBet := 0, minRaise := g.cfg.bb, raises := 0,
       board := g.board + TopCards(g.deck, k), deck := g.deck[..|g.deck| - k], street := StreetAfter(g.street))
  }

  /** `next_street`; the deck must hold the cards, or `deal` raises. */
  function NextStreet(g: Game): (r: Game)
    requires DealCount(g.street) <= |g.deck| && g.button < |g.players|
  {
    var d := DealStreet(g);
    if g.street == River then d
    else OpenRound(d.(events := g.events + [BoardDealt(d.street, d.board)]), NextSeat(g.button, |g.players|))
  }

  // ------------------------------------------------------ a new hand

  /** Seats dealt into the coming hand. */
  function WithChips(ps: seq<Player>): (r: set<nat>) {
    set i: nat | i < |ps| && ps[i].stack > 0
  }

  datatype Positions = Positions(button: nat, sbSeat: Option<nat>, bbSeat: Option<nat>)

  function PositionsOf(g: Game): (r: Positions) {
    Positions(g.button, g.sbSeat, g.bbSeat)
  }

  /** The first hand: the button moves to the next dealt seat and the blinds follow it. */
  function FirstPositions(D: set<nat>, button: nat, n: nat): (r: Positions)
    requires button < n && SeatIn(D, n)
  {
    var b := NextIn(D, button, n);
    var next := NextIn(D, b, n);
    if |D| == 2 then Positions(b, Some(b), Some(next))
    else Positions(b, Some(next), Some(NextIn(D, next, n)))
  }

  /** `_advance_positions`: the big blind moves on one seat with chips; small blind and button trail it. */
  function Advance(D: set<nat>, pos: Positions, n: nat): (r: Positions)
    requires pos.button < n && (pos.bbSeat.Some? ==> pos.bbSeat.value < n)
    requires SeatIn(D, n)
  {
    if pos.bbSeat.None? then FirstPositions(D, pos.button, n)
    else
      var prev := pos.bbSeat.value;
      var bb := NextIn(D, prev, n);
      if |D| == 2 && SeatIn(D - {bb}, n) then
        var other := NextIn(D - {bb}, bb, n);
        Positions(other, Some(other), Some(bb))
      else Positions(pos.sbSeat.GetOr(pos.button), Some(prev), Some(bb))
  }

  function Reset(p: Player): (r: Player) {
    Player(p.stack, [], !(p.stack > 0), false, p.stack > 0, 0, 0, 0, 0)
  }

  function ResetAll(ps: seq<Player>): (r: seq<Player>)
    ensures |r| == |ps| && forall i :: 0 <= i < |r| ==> r[i] == Reset(ps[i])
  {
    seq(|ps|, i requires 0 <= i < |ps| => Reset(ps[i]))
  }

  /** `_post`: a blind, or what the stack holds of it. */
  function Post(g: Game, i: nat, amount: int): (r: Game)
    requires i < |g.players|
  {
    var amt := Min(amount, g.players[i].stack);
    var ps := g.players[i := Commit(g.players[i], amt)];
    g.(players := ps, events := g.events + [BlindPosted(i, amt, ps[i].allIn, false, PotOf(ps))])
  }

  /** `_post_dead`: the ante, which is not a live bet. */
  function PostDead(g: Game, i: nat, amount: int): (r: Game)
    requires i < |g.players|
  {
    var p := g.players[i];
    var amt := Min(amount, p.stack);
    var ps := g.players[i := p.(stack := p.stack - amt, totalDead := p.totalDead + amt,
                                allIn := p.allIn || p.stack - amt == 0)];
    g.(players := ps, events := g.events + [BlindPosted(i, amt, ps[i].allIn, true, PotOf(ps))])
  }

  function MaxBet(ps: seq<Player>): (m: int) {
    if |ps| == 0 then 0 else Max(MaxBet(ps[..|ps| - 1]), ps[|ps| - 1].bet)
  }

  /** The seats of `S` met on `steps` steps from `j` on. */
  function Collect(S: set<nat>, j: nat, n: nat, steps: nat): (r: seq<nat>)
    requires j < n
    ensures Seats(r, n)
    decreases steps, S
  {
    if steps == 0 then []
    else (if j in S then [j] else []) + Collect(S, NextSeat(j, n), n, steps - 1)
  }

  lemma CollectNone(S: set<nat>, j: nat, n: nat)
    requires j < n
    ensures Collect(S, j, n, 0) == []
  {
  }

  /** Walking one seat on. */
  lemma CollectTurn(S: set<nat>, j: nat, n: nat, steps: nat, before: seq<nat>)
    requires j < n && steps > 0
    ensures before + Collect(S, j, n, steps)
         == (if j in S then before + [j] else before) + Collect(S, NextSeat(j, n), n, steps - 1)
  {
  }

  datatype Deal = Deal(players: seq<Player>, deck: seq<Card>)

  /** One card to each seat in `order`, from the end of the deck. */
  function DealOne(d: Deal, order: seq<nat>): (r: Deal)
    requires Seats(order, |d.players|) && |order| <= |d.deck|
    ensures |r.players| == |d.players| && |r.deck| == |d.deck| - |order|
    decreases |order|
  {
    if |order| == 0 then d
    else
      var i, k := order[0], |d.deck| - 1;
      var p := d.players[i];
      DealOne(Deal(d.players[i := p.(hole := p.hole + [d.deck[k]])], d.deck[..k]), order[1..])
  }

  /** The small blind, or a dead one when its seat is not in the hand. */
  function PostSmall(g: Game): (r: Game)
    requires g.sbSeat.Some? && g.sbSeat.value < |g.players|
    ensures |r.players| == |g.players| && r == g.(players := r.players, events := r.events)
  {
    if g.players[g.sbSeat.value].inSeat then Post(g, g.sbSeat.value, g.cfg.sb)
    else g.(events := g.events + [BlindDead])
  }

  /** The big blind and, if the table plays one, its ante. */
  function PostBig(g: Game): (r: Game)
    requires g.bbSeat.Some? && g.bbSeat.value < |g.players|
    ensures |r.players| == |g.players| && r == g.(players := r.players, events := r.events)
  {
    var g1 := Post(g, g.bbSeat.value, g.cfg.bb);
    if g.cfg.bbAnte then PostDead(g1, g.bbSeat.value, g.cfg.bb) else g1
  }

  /** The table cleared for a hand: seats reset, positions moved. */
  function Cleared(g: Game, deck: seq<Card>): (r: Game)
    requires Startable(g)
    ensures |r.players| == |g.players| && r.cfg == g.cfg && r.deck == deck
  {
    var n := |g.players|;
    HasSeat(WithChips(g.players), n);
    var pos := Advance(WithChips(g.players), PositionsOf(g), n);
    g.(players := ResetAll(g.players), button := pos.button, sbSeat := pos.sbSeat, bbSeat := pos.bbSeat,
       deck := deck, board := [], board2 := None, street := Preflop, currentBet := 0, minRaise := g.cfg.bb,
       raises := 0, riverAggr := None, handNo := g.handNo + 1,
       events := [HandStarted(g.handNo + 1, g.cfg.sb, g.cfg.bb, if g.cfg.bbAnte then g.cfg.bb else 0)])
  }

  /** At least two seats have chips, and the last blind positions are seats. */
  ghost predicate Startable(g: Game) {
    var n := |g.players|;
    && g.button < n
    && (g.bbSeat.Some? ==> g.bbSeat.value < n && g.sbSeat.Some? && g.sbSeat.value < n)
    && |WithChips(g.players)| >= 2
  }

  /** Two cards to each seat in the hand, starting left of the button. */
  function DealHoles(g: Game, live: set<nat>): (r: Game)
    requires g.button < |g.players| && |g.deck| >= 2 * |g.players|
    ensures |r.players| == |g.players| && r == g.(players := r.players, deck := r.deck)
  {
    var n := |g.players|;
    var order := Collect(live, NextSeat(g.button, n), n, n);
    CollectBound(live, NextSeat(g.button, n), n, n);
    var dealt := DealOne(DealOne(Deal(g.players, g.deck), order), order);
    g.(players := dealt.players, deck := dealt.deck)
  }

  /** Who speaks first before the flop. */
  function FirstToAct(g: Game, live: set<nat>): (r: nat)
    requires g.button < |g.players| && g.bbSeat.Some? && g.bbSeat.value < |g.players| && SeatIn(live, |g.players|)
    ensures r < |g.players|
  {
    if |live| == 2 then g.button else NextIn(live, g.bbSeat.value, |g.players|)
  }

  /** The bring-in is a full big blind even when the big blind is short. */
  function BringIn(g: Game): (r: Game) {
    g.(currentBet := Max(g.cfg.bb, MaxBet(g.players)))
  }

  /** `Engine.start_hand`, without a straddle, on a given deck. */
  function StartHand(g: Game, deck: seq<Card>): (r: Game)
    requires Startable(g) && |deck| >= 2 * |g.players|
  {
    var live := WithChips(g.players);
    HasSeat(live, |g.players|);
    AdvanceFits(live, PositionsOf(g), |g.players|);
    var posted := BringIn(PostBig(PostSmall(Cleared(g, deck))));
    OpenRound(DealHoles(posted, live), FirstToAct(posted, live))
  }

  lemma {:induction false} CollectBound(S: set<nat>, j: nat, n: nat, steps: nat)
    requires j < n
    ensures |Collect(S, j, n, steps)| <= steps
    decreases steps
  {
    if steps > 0 { CollectBound(S, NextSeat(j, n), n, steps - 1); }
  }

  lemma AdvanceFits(D: set<nat>, pos: Positions, n: nat)
    requires pos.button < n && (pos.bbSeat.Some? ==> pos.bbSeat.value < n && pos.sbSeat.Some? && pos.sbSeat.value < n)
    requires SeatIn(D, n)
    ensures var r := Advance(D, pos, n);
            r.button < n && r.sbSeat.Some? && r.sbSeat.value < n && r.bbSeat.Some? && r.bbSeat.value < n && r.bbSeat.value in D
  {
  }
}
