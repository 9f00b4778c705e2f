/** The table that drives the engine (`PokerTable` in holdem/embedding.py), and every run of it. */
module Table {
  import opened Sets
  import opened Sums
  import opened Evaluator
  import opened Settlement
  import opened Game
  import opened Betting
  import opened Dealing
  import opened Settling

  datatype Phase = Lobby | InHand | Between | Closed

  datatype HandResult = HandResult(handNo: nat, initialChips: seq<int>, finalChips: seq<int>)

  datatype Table = Table(
    game: Game, phase: Phase, ids: seq<string>, initial: seq<int>,
    handInitial: seq<int>, result: Option<HandResult>, receipt: Option<seq<int>>)

  datatype Command = FoldHand | CheckCall | RaiseTo(amount: int)

  datatype Step = StartHandStep(deck: seq<Card>) | CommandStep(who: string, command: Command) | CloseStep

  /** A call is done, refused without effect, or hits the chip-conservation error. */
  datatype Reply = Done(table: Table) | Rejected | Corrupt

  // ------------------------------------------------------- a new table

  predicate NoDuplicates(ids: seq<string>) {
    forall i, j :: 0 <= i < j < |ids| ==> ids[i] != ids[j]
  }

  predicate Buyable(ids: seq<string>, chips: seq<int>, cfg: Config) {
    && 2 <= |ids| <= 9 && |chips| == |ids| && NoDuplicates(ids)
    && 0 < cfg.sb && 0 < cfg.bb && cfg.sb <= cfg.bb
    && forall i :: 0 <= i < |chips| ==> chips[i] > 0
  }

  function Seated(chips: seq<int>): (r: seq<Player>)
    ensures |r| == |chips|
    ensures forall i :: 0 <= i < |r| ==> r[i] == Player(chips[i], [], false, false, true, 0, 0, 0, 0)
  {
    seq(|chips|, i requires 0 <= i < |chips| => Player(chips[i], [], false, false, true, 0, 0, 0, 0))
  }

  /** `PokerTable(...)`, or a refusal of the arguments. */
  function Open(ids: seq<string>, chips: seq<int>, cfg: Config): (r: Reply) {
    if !Buyable(ids, chips, cfg) then Rejected
    else
      var game := Game(cfg, Seated(chips), |ids| - 1, None, None, [], [], None, Idle, 0, cfg.bb, {}, None,
                       0, 0, {}, map[], None, []);
      Done(Table(game, Lobby, ids, chips, [], None, None))
  }

  // ------------------------------------------------------ the hand loop

  function StreetsLeft(street: Street): (k: nat) {
    match street
    case Preflop => 4
    case Flop => 3
    case Turn => 2
    case River => 1
    case Showdown => 0
    case Idle => 0
  }

  /** `betting_locked`: several seats left, at most one of them able to bet, nobody to act. */
  predicate Locked(g: Game) {
    |ContestedSeats(g.players)| > 1 && |Movers(g.players)| <= 1 && g.actor.None?
  }

  predicate PositionsOk(g: Game) {
    g.bbSeat.Some? ==> g.bbSeat.value < |g.players| && g.sbSeat.Some? && g.sbSeat.value < |g.players|
  }

  /** A hand in progress: sound bets, turns and cards, and somebody left in it. */
  ghost predicate HandOk(g: Game) {
    && BetsOk(g) && (g.street != Showdown ==> RoundOk(g)) && CardsOk(g)
    && ContestedSeats(g.players) != {} && g.board2.None? && |g.players| <= 9 && PositionsOk(g)
  }

  datatype Advanced = Waiting(game: Game) | Finished(settled: Settled)

  lemma HandSettles(g: Game)
    requires HandOk(g)
    ensures Settleable(g)
  {
  }

  lemma StreetKeepsHand(g: Game)
    requires HandOk(g) && g.street != Showdown
    ensures HandOk(NextStreet(g)) && StreetsLeft(NextStreet(g).street) < StreetsLeft(g.street)
    ensures ChipsOf(NextStreet(g).players) == ChipsOf(g.players)
  {
    hide CardsOf, TurnsOk, ActedOk, ReopenOk, SeatOk;
    NextStreetOk(g);
    NextStreetKeepsCards(g);
    ClearBetsChips(g.players);
  }

  lemma StreetDealt(g: Game)
    requires HandOk(g) && g.street != Showdown
    ensures DealCount(g.street) <= |g.deck| && g.button < |g.players|
    ensures HandOk(NextStreet(g)) && StreetsLeft(NextStreet(g).street) < StreetsLeft(g.street)
  {
    hide RoundOk, SeatOk, CardsOf;
    StreetKeepsHand(g);
  }

  /** `_advance`: settle a decided hand, deal the streets nobody bets on, or wait for the seat to act. */
  function AdvanceHand(g: Game): (r: Advanced)
    requires HandOk(g)
    decreases StreetsLeft(g.street)
  {
    if |ContestedSeats(g.players)| <= 1 || Locked(g) || g.street == Showdown then
      HandSettles(g);
      Finished(Settle(g, false))
    else if g.actor.Some? then Waiting(g)
    else
      StreetDealt(g);
      AdvanceHand(NextStreet(g))
  }

  /** The hand is decided, or nobody can bet any more. */
  predicate Ends(g: Game) {
    |ContestedSeats(g.players)| <= 1 || Locked(g) || g.street == Showdown
  }

  /** One turn of the loop in `_advance`. */
  lemma AdvanceTurn(g: Game)
    requires HandOk(g)
    ensures Settleable(g)
    ensures Ends(g) ==> AdvanceHand(g) == Finished(Settle(g, false))
    ensures !Ends(g) && g.actor.Some? ==> AdvanceHand(g) == Waiting(g)
    ensures !Ends(g) && g.actor.None? ==>
              DealCount(g.street) <= |g.deck| && g.button < |g.players| && g.street != Showdown && HandOk(NextStreet(g))
              && AdvanceHand(g) == AdvanceHand(NextStreet(g)) && StreetsLeft(NextStreet(g).street) < StreetsLeft(g.street)
  {
    hide RoundOk, SeatOk, Settle, CardsOf, Settleable;
    HandSettles(g);
    if !Ends(g) && g.actor.None? { StreetKeepsHand(g); }
  }

  /** The state in which `_advance` settles the hand or waits for a seat. */
  ghost function Reached(g: Game): (r: Game)
    requires HandOk(g)
    ensures HandOk(r)
    decreases StreetsLeft(g.street)
  {
    AdvanceTurn(g);
    if Ends(g) || g.actor.Some? then g else Reached(NextStreet(g))
  }

  lemma {:induction false} AdvanceReaches(g: Game)
    requires HandOk(g)
    ensures Settleable(Reached(g))
    ensures AdvanceHand(g) == if Ends(Reached(g)) then Finished(Settle(Reached(g), false)) else Waiting(Reached(g))
    decreases StreetsLeft(g.street)
  {
    hide HandOk, AdvanceHand, Settle, Settleable, Ends, NextStreet;
    AdvanceTurn(g);
    if !Ends(g) && g.actor.None? { AdvanceReaches(NextStreet(g)); }
  }

  /** The table around `_advance`, with its check that no chip appeared or vanished. */
  function AdvanceTable(t: Table): (r: Reply)
    requires HandOk(t.game)
  {
    match AdvanceHand(t.game)
    case Waiting(g) => Done(t.(game := g))
    case Finished(s) =>
      var final := Stacks(s.game.players);
      if Sum(final) != Sum(t.initial) then Corrupt
      else Done(t.(game := s.game, phase := Between, result := Some(HandResult(s.game.handNo, t.handInitial, final))))
  }

  // ----------------------------------------------------------- calls

  function SeatOf(ids: seq<string>, who: string): (r: Option<nat>)
    ensures r.Some? ==> r.value < |ids| && ids[r.value] == who
    ensures r.None? ==> who !in ids
  {
    if |ids| == 0 then None
    else if ids[|ids| - 1] == who then Some(|ids| - 1)
    else SeatOf(ids[..|ids| - 1], who)
  }

  function ActionOf(c: Command): (r: Action) {
    match c
    case FoldHand => Fold
    case CheckCall => Call
    case RaiseTo(amount) => Raise(amount)
  }

  predicate InRange(l: LegalMoves, c: Command) {
    c.RaiseTo? ==> l.canRaise && l.minTo <= c.amount <= l.maxTo
  }

  /** A table whose hand, if one is on, waits for a seat. */
  ghost predicate TableOk(t: Table) {
    var g, n := t.game, |t.game.players|;
    && n == |t.ids| == |t.initial| && n <= 9 && NoDuplicates(t.ids)
    && (t.phase == InHand ==>
          HandOk(g) && g.actor.Some? && |ContestedSeats(g.players)| >= 2 && g.street != Showdown
          && ChipsOf(g.players) == Sum(t.initial))
    && (t.phase != InHand ==> IdleOk(g) && PositionsOk(g) && Sum(Stacks(g.players)) == Sum(t.initial))
    && (t.phase == Closed <==> t.receipt.Some?)
    && (t.receipt.Some? ==> t.receipt.value == Stacks(g.players))
    && (t.phase == Lobby ==> Stacks(g.players) == t.initial)
  }

  function StartHandCall(t: Table, deck: seq<Card>): (r: Reply)
    requires TableOk(t) && FullDeck(deck)
  {
    if t.phase != Lobby && t.phase != Between then Rejected
    else if |WithChips(t.game.players)| < 2 then Rejected
    else
      StartedHandOk(t.game, deck);
      AdvanceTable(t.(handInitial := Stacks(t.game.players), result := None,
                      game := StartHand(t.game, deck), phase := InHand))
  }

  lemma StartedHandOk(g: Game, deck: seq<Card>)
    requires IdleOk(g) && PositionsOk(g) && |WithChips(g.players)| >= 2 && FullDeck(deck) && |g.players| <= 9
    ensures Startable(g) && HandOk(StartHand(g, deck)) && ChipsOf(StartHand(g, deck).players) == ChipsOf(g.players)
    ensures ContestedSeats(StartHand(g, deck).players) == WithChips(g.players)
  {
    StartedOk(g, deck);
    StartKeepsCards(g, deck);
    HasSeat(WithChips(g.players), |g.players|);
    AdvanceFits(WithChips(g.players), PositionsOf(g), |g.players|);
  }

  function CommandCall(t: Table, who: string, c: Command): (r: Reply)
    requires TableOk(t)
  {
    var seat := SeatOf(t.ids, who);
    if seat.None? || t.phase != InHand || t.game.actor != seat then Rejected
    else if !InRange(Legal(t.game, seat.value), c) then Rejected
    else
      match Act(t.game, seat.value, ActionOf(c))
      case Refused => Rejected
      case Ok(g) =>
        MoveKeepsHand(t.game, seat.value, ActionOf(c));
        AdvanceTable(t.(game := g))
  }

  lemma RoundHasBets(g: Game)
    requires RoundOk(g)
    ensures BetsOk(g)
  {
  }

  lemma MoveKeepsHand(g: Game, i: nat, action: Action)
    requires HandOk(g) && g.street != Showdown && |ContestedSeats(g.players)| >= 2 && Act(g, i, action).Ok?
    ensures HandOk(Act(g, i, action).value)
    ensures ChipsOf(Act(g, i, action).value.players) == ChipsOf(g.players)
  {
    hide Act, RoundOk, CardsOk, ChipsOf;
    var r := Act(g, i, action).value;
    ActKeepsRound(g, i, action);
    RoundHasBets(r);
    ActKeepsCards(g, i, action);
    ActMoves(g, i, action);
    ActProgress(g, i, action);
    assert ContestedSeats(g.players) - {i as nat} <= ContestedSeats(r.players);
    assert |ContestedSeats(g.players) - {i as nat}| >= 1;
  }

  function CloseCall(t: Table): (r: Reply) {
    if t.phase == InHand then Rejected
    else if t.receipt.None? then Done(t.(receipt := Some(Stacks(t.game.players)), phase := Closed))
    else Done(t)
  }

  ghost predicate StepOk(s: Step) {
    s.StartHandStep? ==> FullDeck(s.deck)
  }

  function Apply(t: Table, s: Step): (r: Reply)
    requires TableOk(t) && StepOk(s)
  {
    match s
    case StartHandStep(deck) => StartHandCall(t, deck)
    case CommandStep(who, c) => CommandCall(t, who, c)
    case CloseStep => CloseCall(t)
  }

  // ------------------------------------------------- what a hand keeps

  /** Streets left weigh more than all chips, chips more than the seats still asked. */
  function Weight(street: Street, total: int): (w: int) {
    match street
    case Preflop => 4 * (total + 1)
    case Flop => 3 * (total + 1)
    case Turn => 2 * (total + 1)
    case River => total + 1
    case Showdown => 0
    case Idle => 0
  }

  /** Falls with every accepted command. */
  function Remaining(g: Game): (m: int) {
    10 * (Weight(g.street, ChipsOf(g.players)) + Sum(Stacks(g.players))) + |g.need|
  }

  lemma {:induction false} SmallSet(S: set<nat>, n: nat)
    requires forall s :: s in S ==> s < n
    ensures |S| <= n
  {
    if n > 0 {
      var T := S - {n - 1};
      SmallSet(T, n - 1);
      assert S <= T + {n - 1};
      SubsetSize(S, T + {n - 1});
    } else {
      assert S == {};
    }
  }

  lemma StackBounds(g: Game)
    requires BetsOk(g)
    ensures 0 <= Sum(Stacks(g.players)) <= ChipsOf(g.players)
  {
    SumNonneg(Stacks(g.players));
    SumNonneg(Lives(g.players));
    SumNonneg(Deads(g.players));
  }

  lemma NeedBound(g: Game)
    requires TurnsOk(g) && |g.players| <= 9
    ensures |g.need| <= 9
  {
    SmallSet(g.need, |g.players|);
  }

  lemma RemainingNonneg(g: Game)
    requires BetsOk(g)
    ensures Remaining(g) >= 0
  {
    StackBounds(g);
  }

  /** A new street is nearer the end than any state of the street before. */
  lemma StreetFalls(g: Game)
    requires HandOk(g) && g.street != Showdown && g.street != River && NextStreet(g).actor.Some?
    ensures Remaining(NextStreet(g)) < Remaining(g)
  {
    StreetKeepsHand(g);
    ClearBetsChips(g.players);
    NeedBound(NextStreet(g));
    StackBounds(g);
  }

  lemma ActFalls(g: Game, i: nat, action: Action)
    requires HandOk(g) && g.street != Showdown && Act(g, i, action).Ok?
    ensures Remaining(Act(g, i, action).value) < Remaining(g)
  {
    hide Act, BetsOk, ActedOk, ReopenOk, CardsOk, ChipsOf;
    var r := Act(g, i, action).value;
    ActProgress(g, i, action);
    ActMoves(g, i, action);
    ActKeepsRound(g, i, action);
    NeedBound(g);
    NeedBound(r);
  }

  /** The hand waits for a seat. */
  ghost predicate Waits(g: Game) {
    HandOk(g) && g.actor.Some? && |ContestedSeats(g.players)| >= 2 && g.street != Showdown
  }

  /** Where `_advance` may leave a hand: waiting, nearer the end, or settled; every chip is still there. */
  ghost predicate Leads(g: Game, r: Advanced) {
    match r
    case Waiting(h) =>
      Waits(h) && ChipsOf(h.players) == ChipsOf(g.players) && Remaining(h) <= Remaining(g)
      && ContestedSeats(h.players) == ContestedSeats(g.players) && |h.players| == |g.players|
    case Finished(s) =>
      IdleOk(s.game) && PositionsOk(s.game) && |s.game.players| == |g.players|
      && Sum(Stacks(s.game.players)) == ChipsOf(g.players)
  }

  lemma SettledLeads(g: Game)
    requires HandOk(g)
    ensures Settleable(g) && Leads(g, Finished(Settle(g, false)))
  {
    HandSettles(g);
    SettleOk(g, false);
  }

  /** Dealing a street nobody has to bet on. */
  lemma DealtOn(g: Game)
    requires HandOk(g) && g.street != Showdown && g.actor.None? && |ContestedSeats(g.players)| > 1 && !Locked(g)
    ensures HandOk(NextStreet(g)) && ChipsOf(NextStreet(g).players) == ChipsOf(g.players)
    ensures ContestedSeats(NextStreet(g).players) == ContestedSeats(g.players)
    ensures |NextStreet(g).players| == |g.players|
    ensures g.street != River ==> Remaining(NextStreet(g)) < Remaining(g)
    ensures g.street == River ==> NextStreet(g).street == Showdown
  {
    StreetKeepsHand(g);
    ClearBetsChips(g.players);
    NextStreetOk(g);
    if g.street != River { StreetFalls(g); }
  }

  lemma LeadsOn(g: Game, h: Game, r: Advanced)
    requires Leads(h, r) && ChipsOf(h.players) == ChipsOf(g.players) && |h.players| == |g.players|
    requires ContestedSeats(h.players) == ContestedSeats(g.players)
    requires r.Waiting? ==> Remaining(h) <= Remaining(g)
    ensures Leads(g, r)
  {
  }

  /** `_advance` keeps every chip, and everybody in the hand until it is settled. */
  lemma {:induction false} AdvanceKeeps(g: Game)
    requires HandOk(g)
    ensures Leads(g, AdvanceHand(g))
    decreases StreetsLeft(g.street)
  {
    hide RoundOk, SeatOk, Settle, Settleable, ChipsOf, Remaining;
    if |ContestedSeats(g.players)| <= 1 || Locked(g) || g.street == Showdown {
      SettledLeads(g);
    } else if g.actor.None? {
      DealtOn(g);
      StreetKeepsHand(g);
      AdvanceKeeps(NextStreet(g));
      LeadsOn(g, NextStreet(g), AdvanceHand(NextStreet(g)));
    }
  }

  // -------------------------------------------------- every run of a table

  lemma AdvanceTableKeeps(t: Table)
    requires HandOk(t.game) && ChipsOf(t.game.players) == Sum(t.initial) && t.phase == InHand && t.receipt.None?
    requires |t.game.players| == |t.ids| == |t.initial| && NoDuplicates(t.ids)
    ensures AdvanceTable(t).Done? && TableOk(AdvanceTable(t).table)
    ensures var u := AdvanceTable(t).table;
            u.ids == t.ids && u.initial == t.initial && (u.phase == InHand ==> Remaining(u.game) <= Remaining(t.game))
  {
    AdvanceKeeps(t.game);
  }

  lemma OpenOk(ids: seq<string>, chips: seq<int>, cfg: Config)
    requires Open(ids, chips, cfg).Done?
    ensures TableOk(Open(ids, chips, cfg).table)
    ensures Open(ids, chips, cfg).table.ids == ids && Open(ids, chips, cfg).table.initial == chips
  {
    assert Stacks(Seated(chips)) == chips;
  }

  lemma StartHandKeeps(t: Table, deck: seq<Card>)
    requires TableOk(t) && FullDeck(deck)
    ensures var r := StartHandCall(t, deck);
            r != Corrupt && (r.Done? ==> TableOk(r.table) && r.table.ids == t.ids && r.table.initial == t.initial)
  {
    if (t.phase == Lobby || t.phase == Between) && |WithChips(t.game.players)| >= 2 {
      StartedHandOk(t.game, deck);
      IdleChips(t.game);
      AdvanceTableKeeps(t.(handInitial := Stacks(t.game.players), result := None,
                           game := StartHand(t.game, deck), phase := InHand));
    }
  }

  lemma IdleChips(g: Game)
    requires IdleOk(g)
    ensures ChipsOf(g.players) == Sum(Stacks(g.players))
  {
    SumZero(Lives(g.players));
    SumZero(Deads(g.players));
  }

  /** A command that is not refused is the seat's move followed by `_advance`. */
  lemma CommandIs(t: Table, who: string, c: Command)
    requires TableOk(t) && CommandCall(t, who, c) != Rejected
    ensures t.phase == InHand && t.game.actor.Some? && t.game.actor.value < |t.ids| && t.ids[t.game.actor.value] == who
    ensures Act(t.game, t.game.actor.value, ActionOf(c)).Ok?
    ensures HandOk(Act(t.game, t.game.actor.value, ActionOf(c)).value)
    ensures CommandCall(t, who, c) == AdvanceTable(t.(game := Act(t.game, t.game.actor.value, ActionOf(c)).value))
  {
    MoveKeepsHand(t.game, t.game.actor.value, ActionOf(c));
  }

  /** The seat to act makes a move in range. */
  ghost predicate Takes(t: Table, who: string, c: Command)
    requires TableOk(t)
  {
    t.phase == InHand && t.game.actor.Some? && t.game.actor == SeatOf(t.ids, who)
    && InRange(Legal(t.game, t.game.actor.value), c) && Act(t.game, t.game.actor.value, ActionOf(c)).Ok?
  }

  lemma CommandTakes(t: Table, who: string, c: Command)
    requires TableOk(t)
    ensures CommandCall(t, who, c) != Rejected <==> Takes(t, who, c)
  {
    hide HandOk, AdvanceHand, Legal, Act, TableOk;
  }

  function WithGame(t: Table, g: Game): (u: Table) {
    t.(handInitial := Stacks(t.game.players), result := None, game := g, phase := InHand)
  }

  predicate Ready(t: Table) {
    (t.phase == Lobby || t.phase == Between) && |WithChips(t.game.players)| >= 2
  }

  /** A hand starts exactly at an open table between hands with two funded seats. */
  lemma StartIs(t: Table, deck: seq<Card>)
    requires TableOk(t) && FullDeck(deck)
    ensures !Ready(t) ==> StartHandCall(t, deck) == Rejected
    ensures Ready(t) ==> Startable(t.game) && |deck| >= 2 * |t.game.players| && HandOk(StartHand(t.game, deck))
                         && StartHandCall(t, deck) == AdvanceTable(WithGame(t, StartHand(t.game, deck))) != Rejected
  {
    hide HandOk, StartHand, AdvanceTable, IdleOk;
    if Ready(t) {
      StartedHandOk(t.game, deck);
      NotRejected(WithGame(t, StartHand(t.game, deck)));
    }
  }

  lemma NotRejected(t: Table)
    requires HandOk(t.game)
    ensures AdvanceTable(t) != Rejected
  {
  }

  lemma CommandKeeps(t: Table, who: string, c: Command)
    requires TableOk(t) && CommandCall(t, who, c) != Rejected
    ensures var r := CommandCall(t, who, c);
            r.Done? && TableOk(r.table) && r.table.ids == t.ids && r.table.initial == t.initial
            && (r.table.phase == InHand ==> Remaining(r.table.game) < Remaining(t.game))
  {
    CommandIs(t, who, c);
    var i, a := t.game.actor.value, ActionOf(c);
    MoveKeepsHand(t.game, i, a);
    ActFalls(t.game, i, a);
    ActMoves(t.game, i, a);
    AdvanceTableKeeps(t.(game := Act(t.game, i, a).value));
  }

  /** No call breaks the table, and the chip-conservation error is never reached. */
  lemma ApplyKeeps(t: Table, s: Step)
    requires TableOk(t) && StepOk(s)
    ensures Apply(t, s) != Corrupt
    ensures Apply(t, s).Done? ==> TableOk(Apply(t, s).table)
    ensures Apply(t, s).Done? ==> Apply(t, s).table.ids == t.ids && Apply(t, s).table.initial == t.initial
  {
    match s
    case StartHandStep(deck) => StartHandKeeps(t, deck);
    case CommandStep(who, c) => if CommandCall(t, who, c) != Rejected { CommandKeeps(t, who, c); }
    case CloseStep =>
  }

  /** A call that is refused or fails leaves the table as it was. */
  function After(t: Table, s: Step): (u: Table)
    requires TableOk(t) && StepOk(s)
  {
    match Apply(t, s)
    case Done(u) => u
    case Rejected => t
    case Corrupt => t
  }

  ghost predicate StepsOk(steps: seq<Step>) {
    forall k :: 0 <= k < |steps| ==> StepOk(steps[k])
  }

  /** Any calls, in any order, by anybody. */
  function Run(t: Table, steps: seq<Step>): (u: Table)
    requires TableOk(t) && StepsOk(steps)
    ensures TableOk(u) && u.ids == t.ids && u.initial == t.initial
    decreases |steps|
  {
    if |steps| == 0 then t
    else
      ApplyKeeps(t, steps[0]);
      Run(After(t, steps[0]), steps[1..])
  }

  /** Main result: in every reachable state the chips are the buy-ins and no stack is negative. */
  lemma RunConserves(ids: seq<string>, chips: seq<int>, cfg: Config, steps: seq<Step>)
    requires Open(ids, chips, cfg).Done? && StepsOk(steps)
    ensures var t0 := Open(ids, chips, cfg).table;
            && TableOk(t0)
            && ChipsOf(Run(t0, steps).game.players) == Sum(chips)
            && (forall i :: 0 <= i < |ids| ==> Run(t0, steps).game.players[i].stack >= 0)
            && (Run(t0, steps).receipt.Some? ==> Sum(Run(t0, steps).receipt.value) == Sum(chips))
            && (forall s: Step :: StepOk(s) ==> Apply(Run(t0, steps), s) != Corrupt)
  {
    OpenOk(ids, chips, cfg);
    var t := Run(Open(ids, chips, cfg).table, steps);
    if t.phase != InHand { IdleChips(t.game); }
    forall s: Step | StepOk(s) ensures Apply(t, s) != Corrupt {
      ApplyKeeps(t, s);
    }
  }

  // ------------------------------------------------- no hand gets stuck

  lemma InRangeActs(g: Game, c: Command)
    requires RoundOk(g) && g.actor.Some? && InRange(Legal(g, g.actor.value), c)
    ensures Act(g, g.actor.value, ActionOf(c)).Ok?
  {
  }

  /** In a hand somebody is asked and able to act, and exactly the moves in range are accepted: a fold or call always. */
  lemma NeverStuck(t: Table, c: Command)
    requires TableOk(t) && t.phase == InHand
    ensures t.game.actor.Some? && t.game.actor.value in t.game.need && t.game.actor.value < |t.ids|
    ensures CommandCall(t, t.ids[t.game.actor.value], c).Done? <==> InRange(Legal(t.game, t.game.actor.value), c)
    ensures !c.RaiseTo? ==> CommandCall(t, t.ids[t.game.actor.value], c).Done?
  {
    hide CardsOk, ActedOk, ReopenOk, Settle, AdvanceHand;
    var i := t.game.actor.value;
    SeatUnique(t.ids, i);
    if InRange(Legal(t.game, i), c) {
      InRangeActs(t.game, c);
      MoveKeepsHand(t.game, i, ActionOf(c));
      AdvanceKeeps(Act(t.game, i, ActionOf(c)).value);
    }
  }

  lemma {:induction false} SeatUnique(ids: seq<string>, i: nat)
    requires NoDuplicates(ids) && i < |ids|
    ensures SeatOf(ids, ids[i]) == Some(i)
  {
    if i < |ids| - 1 { SeatUnique(ids[..|ids| - 1], i); }
  }

  /** Commands accepted one after the other while the same hand lasts. */
  ghost predicate Accepted(t: Table, commands: seq<(string, Command)>)
    requires TableOk(t)
    decreases |commands|
  {
    |commands| == 0 || (t.phase == InHand &&
      match CommandCall(t, commands[0].0, commands[0].1)
      case Done(u) => TableOk(u) && Accepted(u, commands[1..])
      case _ => false)
  }

  /** Main result: a hand takes a bounded number of commands, so it ends. */
  lemma {:induction false} HandEnds(t: Table, commands: seq<(string, Command)>)
    requires TableOk(t) && Accepted(t, commands) && |commands| > 0
    ensures |commands| <= Remaining(t.game) + 1
    decreases |commands|
  {
    var c := commands[0];
    CommandKeeps(t, c.0, c.1);
    RemainingNonneg(t.game);
    if |commands| > 1 {
      var u := CommandCall(t, c.0, c.1).table;
      HandEnds(u, commands[1..]);
    }
  }
}
