/** What a seat is shown while a hand is played (holdem/contract.py, holdem/player_info.py), and what that gives away. */
module Privacy {
  import opened Sums
  import HandScoring
  import opened Evaluator
  import opened Pots
  import opened Settlement
  import opened Game
  import opened Betting
  import opened Dealing
  import opened Settling
  import opened Table
  import opened Turns

  // ----------------------------------------------------------- the view

  datatype Badge = Button | SmallBlind | BigBlind | NoBadge

  datatype SeatView = SeatView(stack: int, bet: int, folded: bool, allIn: bool, inSeat: bool, badge: Badge)

  datatype TurnState = FoldedWaiting | AllInWaiting | YourTurn | OthersTurn | Resolving

  datatype TurnView = TurnView(state: TurnState, pot: int, stack: int, bet: int, effective: int)

  datatype Decision = Decision(
    toCall: int, canCheck: bool, canRaise: bool, potNow: int, potAfterCall: int,
    stackAfterCall: int, minTo: int, maxTo: int, callIsAllIn: bool)

  /** The cards a seat may see and what they make, with five or more of them. */
  datatype Own = Own(hole: seq<Card>, made: Option<Score>, boardPlays: bool)

  datatype View = View(
    seat: nat, handNo: nat, street: Street, board: seq<Card>, pot: int, button: nat,
    sbSeat: Option<nat>, bbSeat: Option<nat>, actionOn: Option<nat>, seats: seq<SeatView>,
    own: Own, legal: Option<LegalMoves>, turn: TurnView, decision: Option<Decision>, events: seq<Event>)

  function BadgeOf(g: Game, i: nat): Badge {
    if i == g.button then Button
    else if g.sbSeat == Some(i) then SmallBlind
    else if g.bbSeat == Some(i) then BigBlind
    else NoBadge
  }

  function SeatViews(g: Game): (r: seq<SeatView>)
    ensures |r| == |g.players|
  {
    seq(|g.players|, i requires 0 <= i < |g.players| =>
      var p := g.players[i];
      SeatView(p.stack, p.bet, p.folded, p.allIn, p.inSeat, BadgeOf(g, i)))
  }

  ghost function OwnView(hole: seq<Card>, board: seq<Card>): Own {
    if !Hand(HandScoring.CardSet(hole + board)) then Own(hole, None, false)
    else
      var score := Evaluate(HandScoring.CardSet(hole + board));
      Own(hole, Some(score), Hand(HandScoring.CardSet(board)) && Evaluate(HandScoring.CardSet(board)) == score)
  }

  function Most(ps: seq<Player>, S: set<nat>, low: int): (m: int) {
    if |ps| == 0 then low
    else
      var rest, last := Most(ps[..|ps| - 1], S, low), |ps| - 1;
      if last in S then Max(rest, ps[last].stack + ps[last].bet) else rest
  }

  /** What the seat plays for: its own chips, or the largest rival's if that is less. */
  function Effective(g: Game, i: nat): (e: int)
    requires i < |g.players|
  {
    var own, rivals := g.players[i].stack + g.players[i].bet, ContestedSeats(g.players) - {i};
    if rivals == {} then own else Min(own, Most(g.players, rivals, 0))
  }

  function TurnOf(g: Game, i: nat): TurnView
    requires i < |g.players|
  {
    var p := g.players[i];
    var state :=
      if p.folded then FoldedWaiting
      else if p.allIn then AllInWaiting
      else if g.actor == Some(i) then YourTurn
      else if g.actor.Some? then OthersTurn
      else Resolving;
    TurnView(state, PotOf(g.players), p.stack, p.bet, Effective(g, i))
  }

  function DecisionOf(g: Game, i: nat): Decision
    requires i < |g.players|
  {
    var l, p := Legal(g, i), g.players[i];
    Decision(l.toCall, l.canCheck, l.canRaise, l.pot, l.pot + l.toCall, p.stack - l.toCall, l.minTo, l.maxTo,
             l.toCall > 0 && l.toCall >= p.stack)
  }

  /** `view` for seat `i` while a hand is on: the public table, its own cards, and its own choices on its turn. */
  ghost function ViewOf(g: Game, i: nat): View
    requires i < |g.players|
  {
    var mine := g.actor == Some(i);
    View(i, g.handNo, g.street, g.board, PotOf(g.players), g.button, g.sbSeat, g.bbSeat, g.actor, SeatViews(g),
         OwnView(g.players[i].hole, g.board), if mine then Some(Legal(g, i)) else None, TurnOf(g, i),
         if mine then Some(DecisionOf(g, i)) else None, g.events)
  }

  // ------------------------------------------- hands that differ in cards

  predicate SamePlayer(p: Player, q: Player) {
    p.(hole := []) == q.(hole := [])
  }

  predicate SamePlayers(ps: seq<Player>, qs: seq<Player>) {
    |ps| == |qs| && forall i :: 0 <= i < |ps| ==> SamePlayer(ps[i], qs[i])
  }

  predicate SameEvent(a: Event, b: Event) {
    if a.BoardDealt? && b.BoardDealt? then a.street == b.street else a == b
  }

  predicate SameEvents(a: seq<Event>, b: seq<Event>) {
    |a| == |b| && forall k :: 0 <= k < |a| ==> SameEvent(a[k], b[k])
  }

  function Stripped(g: Game): Game {
    g.(players := [], deck := [], board := [], events := [])
  }

  /** Equal but for the cards. */
  predicate Alike(g: Game, h: Game) {
    && Stripped(g) == Stripped(h) && |g.deck| == |h.deck|
    && SamePlayers(g.players, h.players) && SameEvents(g.events, h.events)
  }

  lemma SameCounts(ps: seq<Player>, qs: seq<Player>)
    requires SamePlayers(ps, qs)
    ensures PotOf(ps) == PotOf(qs) && Movers(ps) == Movers(qs) && ContestedSeats(ps) == ContestedSeats(qs)
  {
    assert forall i :: 0 <= i < |ps| ==> SamePlayer(ps[i], qs[i]);
    SameFields(ps, qs);
    assert Lives(ps) == Lives(qs) && Deads(ps) == Deads(qs);
  }

  lemma SameFields(ps: seq<Player>, qs: seq<Player>)
    requires SamePlayers(ps, qs)
    ensures forall i :: 0 <= i < |ps| ==>
              var p, q := ps[i], qs[i];
              && p.stack == q.stack && p.bet == q.bet && p.totalLive == q.totalLive && p.totalDead == q.totalDead
              && p.folded == q.folded && p.allIn == q.allIn && p.inSeat == q.inSeat
  {
    forall i | 0 <= i < |ps| ensures SamePlayer(ps[i], qs[i]) &&
      ps[i].stack == qs[i].stack && ps[i].bet == qs[i].bet && ps[i].totalLive == qs[i].totalLive
      && ps[i].totalDead == qs[i].totalDead
      && ps[i].folded == qs[i].folded && ps[i].allIn == qs[i].allIn && ps[i].inSeat == qs[i].inSeat
    {
      var p, q := ps[i].(hole := []), qs[i].(hole := []);
      assert p == q;
    }
  }

  lemma SameLegal(g: Game, h: Game, i: nat)
    requires Alike(g, h) && i < |g.players|
    ensures Legal(g, i) == Legal(h, i)
  {
    SameCounts(g.players, h.players);
    SameFields(g.players, h.players);
    assert g.cfg == Stripped(g).cfg && g.currentBet == Stripped(g).currentBet && g.minRaise == Stripped(g).minRaise
           && g.noRaise == Stripped(g).noRaise && g.street == Stripped(g).street && g.raises == Stripped(g).raises;
  }

  // ------------------------------------------------ cards steer no move

  lemma SameFold(g: Game, h: Game, i: nat)
    requires Alike(g, h) && i < |g.players|
    ensures Alike(DoFold(g, i), DoFold(h, i))
  {
    var p, q := g.players[i].(folded := true), h.players[i].(folded := true);
    SameSeat(g.players, h.players, i);
    SamePlayersUpdate(g.players, h.players, i, p, q);
    SameCounts(g.players[i := p], h.players[i := q]);
    StrippedFields(g, h);
  }

  lemma SameCall(g: Game, h: Game, i: nat)
    requires Alike(g, h) && i < |g.players|
    ensures Alike(DoCall(g, i), DoCall(h, i))
  {
    SameLegal(g, h, i);
    var amt := Legal(g, i).toCall;
    var p, q := Commit(g.players[i], amt), Commit(h.players[i], amt);
    SameSeat(g.players, h.players, i);
    SamePlayersUpdate(g.players, h.players, i, p, q);
    SameCounts(g.players[i := p], h.players[i := q]);
    SameCounts(g.players, h.players);
    StrippedFields(g, h);
  }

  lemma SameRaise(g: Game, h: Game, i: nat, target: int)
    requires Alike(g, h) && i < |g.players|
    ensures Alike(DoRaise(g, i, target), DoRaise(h, i, target))
  {
    hide Grown, PotOf, SamePlayers;
    SameSeat(g.players, h.players, i);
    var add := target - g.players[i].bet;
    var p, q := Commit(g.players[i], add), Commit(h.players[i], add);
    SamePlayersUpdate(g.players, h.players, i, p, q);
    SameCounts(g.players[i := p], h.players[i := q]);
    StrippedFields(g, h);
    var g1, h1 := g.(players := g.players[i := p]), h.(players := h.players[i := q]);
    SameGrown(g1, h1, i, p.bet - g.currentBet, p.bet - g.currentBet >= g.minRaise);
    SameEventsMore(g.events, h.events, DoRaise(g, i, target).events[|g.events|]);
  }

  lemma SameGrown(g: Game, h: Game, i: nat, size: int, full: bool)
    requires Alike(g, h) && i < |g.players|
    ensures |h.players| == |g.players| && Alike(Grown(g, i, size, full), Grown(h, i, size, full))
    ensures Grown(g, i, size, full).players == g.players && Grown(h, i, size, full).players == h.players
  {
    hide Restricted, Behind, Movers, PotOf, SamePlayers;
    SameSeat(g.players, h.players, i);
    SameCounts(g.players, h.players);
    SameBehind(g.players, h.players, i, g.players[i].bet);
    StrippedFields(g, h);
  }

  lemma SameEventsMore(a: seq<Event>, b: seq<Event>, e: Event)
    requires SameEvents(a, b)
    ensures SameEvents(a + [e], b + [e])
  {
  }

  lemma SameBehind(ps: seq<Player>, qs: seq<Player>, i: nat, bet: int)
    requires SamePlayers(ps, qs)
    ensures Behind(ps, i, bet) == Behind(qs, i, bet)
  {
    SameCounts(ps, qs);
    SameFields(ps, qs);
  }

  lemma SameSeat(ps: seq<Player>, qs: seq<Player>, i: nat)
    requires SamePlayers(ps, qs) && i < |ps|
    ensures |qs| == |ps| && qs[i] == ps[i].(hole := qs[i].hole)
  {
    assert SamePlayer(ps[i], qs[i]);
    assert ps[i].(hole := []).(hole := qs[i].hole) == qs[i].(hole := []).(hole := qs[i].hole);
  }

  lemma SamePlayersUpdate(ps: seq<Player>, qs: seq<Player>, i: nat, p: Player, q: Player)
    requires SamePlayers(ps, qs) && i < |ps| && SamePlayer(p, q)
    ensures SamePlayers(ps[i := p], qs[i := q])
  {
  }

  lemma StrippedFields(g: Game, h: Game)
    requires Stripped(g) == Stripped(h)
    ensures h == g.(players := h.players, deck := h.deck, board := h.board, events := h.events)
  {
    var s, t := Stripped(g), Stripped(h);
    assert s.(players := h.players, deck := h.deck, board := h.board, events := h.events)
        == t.(players := h.players, deck := h.deck, board := h.board, events := h.events);
  }

  lemma SameFinish(g: Game, h: Game, i: nat)
    requires Alike(g, h) && i < |g.players|
    ensures Alike(Finish(g, i), Finish(h, i))
  {
    SameSeat(g.players, h.players, i);
    StrippedFields(g, h);
  }

  lemma SeatsStay(g: Game, i: nat)
    requires i < |g.players|
    ensures |DoFold(g, i).players| == |DoCall(g, i).players| == |g.players|
  {
  }

  lemma RaiseSeatsStay(g: Game, i: nat, target: int)
    requires i < |g.players|
    ensures |DoRaise(g, i, target).players| == |g.players|
  {
  }

  /** The cards decide neither whether a move is accepted nor what it does. */
  lemma SameAct(g: Game, h: Game, i: int, action: Action)
    requires Alike(g, h)
    ensures Act(g, i, action).Ok? <==> Act(h, i, action).Ok?
    ensures Act(g, i, action).Ok? ==> Alike(Act(g, i, action).value, Act(h, i, action).value)
  {
    hide Legal, Finish, Alike, PotOf, DoFold, DoCall, DoRaise;
    AlikeParts(g, h);
    StrippedFields(g, h);
    if 0 <= i < |g.players| {
      SameSeat(g.players, h.players, i);
      SameLegal(g, h, i);
      SeatsStay(g, i);
      SameFold(g, h, i);
      SameFinish(DoFold(g, i), DoFold(h, i), i);
      SameCall(g, h, i);
      SameFinish(DoCall(g, i), DoCall(h, i), i);
      if action.Raise? {
        var target := Target(Legal(g, i), action.amount);
        RaiseSeatsStay(g, i, target);
        SameRaise(g, h, i, target);
        SameFinish(DoRaise(g, i, target), DoRaise(h, i, target), i);
      }
    }
  }

  lemma AlikeParts(g: Game, h: Game)
    requires Alike(g, h)
    ensures Stripped(g) == Stripped(h) && |g.deck| == |h.deck| && SamePlayers(g.players, h.players)
  {
  }

  // -------------------------------------------------- streets and hands

  lemma SameOpen(g: Game, h: Game, first: nat)
    requires Alike(g, h) && first < |g.players|
    ensures Alike(OpenRound(g, first), OpenRound(h, first))
  {
    SameCounts(g.players, h.players);
    SameFields(g.players, h.players);
    StrippedFields(g, h);
  }

  lemma SameDeal(g: Game, h: Game)
    requires Alike(g, h) && DealCount(g.street) <= |g.deck| && h.street == g.street
    ensures Alike(DealStreet(g), DealStreet(h))
  {
    StrippedFields(g, h);
    forall i | 0 <= i < |g.players| ensures SamePlayer(ClearBets(g.players)[i], ClearBets(h.players)[i]) {
      SameSeat(g.players, h.players, i);
    }
  }

  lemma SameStreet(g: Game, h: Game)
    requires Alike(g, h) && DealCount(g.street) <= |g.deck| && g.button < |g.players|
    ensures h.street == g.street && h.button == g.button && |h.players| == |g.players|
    ensures Alike(NextStreet(g), NextStreet(h))
  {
    StrippedFields(g, h);
    SameDeal(g, h);
    if g.street != River {
      var d, e := DealStreet(g), DealStreet(h);
      SameNews(d, e, g.events + [BoardDealt(d.street, d.board)], h.events + [BoardDealt(e.street, e.board)]);
      SameOpen(d.(events := g.events + [BoardDealt(d.street, d.board)]),
               e.(events := h.events + [BoardDealt(e.street, e.board)]), NextSeat(g.button, |g.players|));
    }
  }

  lemma SameNews(g: Game, h: Game, a: seq<Event>, b: seq<Event>)
    requires Alike(g, h) && SameEvents(a, b)
    ensures Alike(g.(events := a), h.(events := b))
  {
    StrippedFields(g, h);
  }

  /** Two decks give the same posts, the same turn and the same seats their cards. */
  lemma SameStart(g: Game, deck: seq<Card>, deck': seq<Card>)
    requires Startable(g) && |deck| == |deck'| >= 2 * |g.players|
    ensures Alike(StartHand(g, deck), StartHand(g, deck'))
  {
    var live := WithChips(g.players);
    HasSeat(live, |g.players|);
    AdvanceFits(live, PositionsOf(g), |g.players|);
    var c, c' := Cleared(g, deck), Cleared(g, deck');
    assert c' == c.(deck := deck');
    SamePosts(c, deck');
    var p, p' := BringIn(PostBig(PostSmall(c))), BringIn(PostBig(PostSmall(c')));
    SameHoles(p, deck', live);
    SameOpen(DealHoles(p, live), DealHoles(p', live), FirstToAct(p, live));
  }

  lemma SamePosts(g: Game, deck: seq<Card>)
    requires g.sbSeat.Some? && g.sbSeat.value < |g.players| && g.bbSeat.Some? && g.bbSeat.value < |g.players|
    ensures PostBig(PostSmall(g.(deck := deck))) == PostBig(PostSmall(g)).(deck := deck)
  {
    assert PostSmall(g.(deck := deck)) == PostSmall(g).(deck := deck);
  }

  lemma SameHoles(g: Game, deck: seq<Card>, live: set<nat>)
    requires g.button < |g.players| && |deck| == |g.deck| >= 2 * |g.players|
    ensures Alike(DealHoles(g, live), DealHoles(g.(deck := deck), live))
  {
    var h := g.(deck := deck);
    DealHolesKeeps(g, live);
    DealHolesKeeps(h, live);
    var r, s := DealHoles(g, live), DealHoles(h, live);
    forall i | 0 <= i < |g.players| ensures SamePlayer(r.players[i], s.players[i]) {
      assert r.players[i] == g.players[i].(hole := r.players[i].hole);
      assert s.players[i] == g.players[i].(hole := s.players[i].hole);
    }
    SameLeft(g, h, live);
  }

  lemma SameLeft(g: Game, h: Game, live: set<nat>)
    requires g.button == h.button < |g.players| == |h.players| && |h.deck| == |g.deck| >= 2 * |g.players|
    ensures |DealHoles(g, live).deck| == |DealHoles(h, live).deck|
  {
    CollectBound(live, NextSeat(g.button, |g.players|), |g.players|, |g.players|);
  }

  lemma SameEnds(g: Game, h: Game)
    requires Alike(g, h)
    ensures Ends(g) <==> Ends(h)
    ensures g.actor == h.actor && g.street == h.street
  {
    SameCounts(g.players, h.players);
    StrippedFields(g, h);
  }

  /** `_advance` waits or settles whatever the cards are, and where it waits the hands are still alike. */
  lemma {:induction false} SameAdvance(g: Game, h: Game)
    requires HandOk(g) && HandOk(h) && Alike(g, h)
    ensures AdvanceHand(g).Waiting? <==> AdvanceHand(h).Waiting?
    ensures AdvanceHand(g).Waiting? ==> Alike(AdvanceHand(g).game, AdvanceHand(h).game)
    decreases StreetsLeft(g.street)
  {
    hide HandOk, AdvanceHand, Alike, Ends, NextStreet;
    SameEnds(g, h);
    AdvanceTurn(g);
    AdvanceTurn(h);
    if !Ends(g) && g.actor.None? {
      SameStreet(g, h);
      SameAdvance(NextStreet(g), NextStreet(h));
    }
  }

  // ------------------------------------------- the events and the board

  /** Every board the events name is the part of the board dealt by then. */
  ghost predicate EventsFit(g: Game) {
    |g.board| == BoardSize(g.street) && forall k :: 0 <= k < |g.events| ==> EventFits(g.events[k], g.board)
  }

  predicate EventFits(e: Event, board: seq<Card>) {
    e.BoardDealt? ==> BoardSize(e.street) <= |board| && e.board == board[..BoardSize(e.street)]
  }

  lemma ActFits(g: Game, i: nat, action: Action)
    requires RoundOk(g) && EventsFit(g) && Act(g, i, action).Ok?
    ensures EventsFit(Act(g, i, action).value)
  {
    hide RoundOk, PotOf, Restricted, Behind, Movers;
    ActMoves(g, i, action);
  }

  lemma StreetFits(g: Game)
    requires EventsFit(g) && DealCount(g.street) <= |g.deck| && g.button < |g.players| && g.street != Showdown && g.street != Idle
    ensures EventsFit(NextStreet(g))
  {
    var r := NextStreet(g);
    assert |r.board| == BoardSize(r.street);
    forall k | 0 <= k < |g.events| ensures EventFits(g.events[k], r.board) {
      assert EventFits(g.events[k], g.board);
    }
  }

  lemma StartFits(g: Game, deck: seq<Card>)
    requires Startable(g) && |deck| >= 2 * |g.players|
    ensures EventsFit(StartHand(g, deck))
  {
    HasSeat(WithChips(g.players), |g.players|);
    AdvanceFits(WithChips(g.players), PositionsOf(g), |g.players|);
    var c := Cleared(g, deck);
    assert EventsFit(c);
    PostFits(c);
  }

  lemma PostFits(g: Game)
    requires EventsFit(g) && g.sbSeat.Some? && g.sbSeat.value < |g.players| && g.bbSeat.Some? && g.bbSeat.value < |g.players|
    ensures EventsFit(PostBig(PostSmall(g)))
  {
    assert EventsFit(PostSmall(g));
  }

  lemma {:induction false} AdvanceFitsBoard(g: Game)
    requires HandOk(g) && EventsFit(g)
    ensures AdvanceHand(g).Waiting? ==> EventsFit(AdvanceHand(g).game)
    decreases StreetsLeft(g.street)
  {
    hide AdvanceHand, EventsFit, NextStreet, BetsOk, RoundOk, CardsOf;
    AdvanceTurn(g);
    if !Ends(g) && g.actor.None? {
      StreetFits(g);
      AdvanceFitsBoard(NextStreet(g));
    }
  }

  // ----------------------------------------------------- the main result

  /** Two hands alike, with the same own cards and board, look the same to the seat. */
  lemma SameView(g: Game, h: Game, i: nat)
    requires Alike(g, h) && EventsFit(g) && EventsFit(h) && i < |g.players|
    requires g.players[i].hole == h.players[i].hole && g.board == h.board
    ensures |h.players| == |g.players| && ViewOf(g, i) == ViewOf(h, i)
  {
    hide Legal, PotOf, Most, OwnView, ContestedSeats;
    StrippedFields(g, h);
    SameLegal(g, h, i);
    SameCounts(g.players, h.players);
    SameFields(g.players, h.players);
    SameSeat(g.players, h.players, i);
    SameMost(g.players, h.players, ContestedSeats(g.players) - {i}, 0);
    SameLog(g, h);
    assert SeatViews(g) == SeatViews(h);
  }

  lemma {:induction false} SameMost(ps: seq<Player>, qs: seq<Player>, S: set<nat>, low: int)
    requires SamePlayers(ps, qs)
    ensures Most(ps, S, low) == Most(qs, S, low)
  {
    if |ps| > 0 {
      SameFields(ps, qs);
      SameMost(ps[..|ps| - 1], qs[..|qs| - 1], S, low);
    }
  }

  lemma SameLog(g: Game, h: Game)
    requires Alike(g, h) && EventsFit(g) && EventsFit(h) && g.board == h.board
    ensures g.events == h.events
  {
    forall k | 0 <= k < |g.events| ensures g.events[k] == h.events[k] {
      assert SameEvent(g.events[k], h.events[k]);
      assert EventFits(g.events[k], g.board) && EventFits(h.events[k], h.board);
    }
  }

  /** Two runs of a table after the same calls: in the same phase, and alike while the hand is on. */
  ghost predicate Twins(t: Table, u: Table) {
    && t.phase == u.phase && t.ids == u.ids
    && (t.phase == InHand ==> Alike(t.game, u.game) && EventsFit(t.game) && EventsFit(u.game))
  }

  lemma TwinAdvance(t: Table, u: Table)
    requires Twins(t, u) && t.phase == InHand && HandOk(t.game) && HandOk(u.game)
    requires AdvanceTable(t).Done? && AdvanceTable(u).Done?
    ensures Twins(AdvanceTable(t).table, AdvanceTable(u).table)
  {
    hide HandOk, AdvanceHand, Alike, EventsFit;
    SameAdvance(t.game, u.game);
    AdvanceFitsBoard(t.game);
    AdvanceFitsBoard(u.game);
  }

  lemma TwinCommand(t: Table, u: Table, who: string, c: Command)
    requires TableOk(t) && TableOk(u) && Twins(t, u)
    ensures CommandCall(t, who, c).Done? <==> CommandCall(u, who, c).Done?
    ensures CommandCall(t, who, c).Done? ==> Twins(CommandCall(t, who, c).table, CommandCall(u, who, c).table)
  {
    hide HandOk, CommandCall, Alike, EventsFit, Legal, Act, AdvanceTable, InRange;
    CommandTakes(t, who, c);
    CommandTakes(u, who, c);
    SameTakes(t, u, who, c);
    if Takes(t, who, c) {
      CommandKeeps(t, who, c);
      CommandKeeps(u, who, c);
      CommandIs(t, who, c);
      CommandIs(u, who, c);
      var i, a := t.game.actor.value, ActionOf(c);
      TwinMove(t, u, i, a);
      TwinAdvance(t.(game := Act(t.game, i, a).value), u.(game := Act(u.game, i, a).value));
    }
  }

  lemma TwinMove(t: Table, u: Table, i: nat, a: Action)
    requires TableOk(t) && TableOk(u) && Twins(t, u) && t.phase == InHand
    requires Act(t.game, i, a).Ok? && Act(u.game, i, a).Ok?
    ensures Twins(t.(game := Act(t.game, i, a).value), u.(game := Act(u.game, i, a).value))
  {
    hide Act, Alike, EventsFit, RoundOk, CardsOk, BetsOk;
    SameAct(t.game, u.game, i, a);
    ActFits(t.game, i, a);
    ActFits(u.game, i, a);
  }

  lemma SameTakes(t: Table, u: Table, who: string, c: Command)
    requires TableOk(t) && TableOk(u) && Twins(t, u)
    ensures Takes(t, who, c) <==> Takes(u, who, c)
    ensures Takes(t, who, c) ==> t.game.actor == u.game.actor
  {
    hide HandOk, Alike, EventsFit, Act, InRange, Legal;
    if t.phase == InHand {
      SameEnds(t.game, u.game);
      if t.game.actor.Some? && t.game.actor == SeatOf(t.ids, who) {
        SameLegal(t.game, u.game, t.game.actor.value);
        SameAct(t.game, u.game, t.game.actor.value, ActionOf(c));
      }
    }
  }

  predicate OnlyCommands(steps: seq<Step>) {
    forall k :: 0 <= k < |steps| ==> steps[k].CommandStep?
  }

  lemma {:induction false} TwinRun(t: Table, u: Table, steps: seq<Step>)
    requires TableOk(t) && TableOk(u) && Twins(t, u) && OnlyCommands(steps)
    ensures StepsOk(steps) && Twins(Run(t, steps), Run(u, steps))
    decreases |steps|
  {
    hide TableOk, Twins, CommandCall;
    if |steps| > 0 {
      var s := steps[0];
      TwinCommand(t, u, s.who, s.command);
      ApplyKeeps(t, s);
      ApplyKeeps(u, s);
      TwinRun(After(t, s), After(u, s), steps[1..]);
    }
  }

  lemma StartFitsTable(t: Table, deck: seq<Card>)
    requires TableOk(t) && FullDeck(deck) && Ready(t)
    ensures Startable(t.game) && |deck| >= 2 * |t.game.players| && EventsFit(StartHand(t.game, deck))
  {
    StartedHandOk(t.game, deck);
    StartFits(t.game, deck);
  }

  lemma TwinStart(t: Table, deck: seq<Card>, deck': seq<Card>)
    requires TableOk(t) && FullDeck(deck) && FullDeck(deck')
    ensures StartHandCall(t, deck).Done? <==> StartHandCall(t, deck').Done?
    ensures StartHandCall(t, deck).Done? ==>
              TableOk(StartHandCall(t, deck).table) && TableOk(StartHandCall(t, deck').table)
              && Twins(StartHandCall(t, deck).table, StartHandCall(t, deck').table)
  {
    hide HandOk, StartHand, AdvanceTable, EventsFit, Alike, StartHandCall, Ready, WithGame, TableOk, Twins;
    StartHandKeeps(t, deck);
    StartHandKeeps(t, deck');
    StartIs(t, deck);
    StartIs(t, deck');
    if Ready(t) {
      StartFitsTable(t, deck);
      StartFitsTable(t, deck');
      TwinDealt(t, deck, deck');
    }
  }

  lemma TwinDealt(t: Table, deck: seq<Card>, deck': seq<Card>)
    requires TableOk(t) && Startable(t.game) && |deck| == |deck'| >= 2 * |t.game.players|
    requires HandOk(StartHand(t.game, deck)) && EventsFit(StartHand(t.game, deck))
    requires HandOk(StartHand(t.game, deck')) && EventsFit(StartHand(t.game, deck'))
    ensures var a, b := AdvanceTable(WithGame(t, StartHand(t.game, deck))), AdvanceTable(WithGame(t, StartHand(t.game, deck')));
            a != Rejected && b != Rejected && (a.Done? && b.Done? ==> Twins(a.table, b.table))
  {
    hide HandOk, StartHand, AdvanceHand, EventsFit, Alike, TableOk;
    SameStart(t.game, deck, deck');
    var a, b := WithGame(t, StartHand(t.game, deck)), WithGame(t, StartHand(t.game, deck'));
    if AdvanceTable(a).Done? && AdvanceTable(b).Done? { TwinAdvance(a, b); }
  }

  /** Main result: deal a hand from any two decks and make the same calls. Both hands are then in the same phase, and
      while they are played a seat whose own cards and board agree sees exactly the same: no view, legal move, event or
      accepted command depends on another seat's cards or on the deck. */
  lemma ViewsHideCards(t: Table, deck: seq<Card>, deck': seq<Card>, steps: seq<Step>, i: nat)
    requires TableOk(t) && FullDeck(deck) && FullDeck(deck') && StartHandCall(t, deck).Done? && OnlyCommands(steps)
    requires i < |t.ids|
    ensures StartHandCall(t, deck').Done? && StepsOk(steps)
    ensures TableOk(StartHandCall(t, deck).table) && TableOk(StartHandCall(t, deck').table)
    ensures var a, b := Run(StartHandCall(t, deck).table, steps), Run(StartHandCall(t, deck').table, steps);
            && a.phase == b.phase && |a.game.players| == |b.game.players| == |t.ids|
            && (a.phase == InHand ==>
                  (a.game.players[i].hole == b.game.players[i].hole && a.game.board == b.game.board
                   <==> ViewOf(a.game, i) == ViewOf(b.game, i)))
  {
    hide StartHandCall, Run, ViewOf, Alike, EventsFit;
    StartHandKeeps(t, deck);
    StartHandKeeps(t, deck');
    TwinStart(t, deck, deck');
    TwinRun(StartHandCall(t, deck).table, StartHandCall(t, deck').table, steps);
    var a, b := Run(StartHandCall(t, deck).table, steps), Run(StartHandCall(t, deck').table, steps);
    if a.phase == InHand { ViewExact(a.game, b.game, i); }
  }

  lemma ViewExact(g: Game, h: Game, i: nat)
    requires Alike(g, h) && EventsFit(g) && EventsFit(h) && i < |g.players| == |h.players|
    ensures g.players[i].hole == h.players[i].hole && g.board == h.board <==> ViewOf(g, i) == ViewOf(h, i)
  {
    hide Alike, EventsFit, SeatViews, PotOf, Legal, TurnOf, DecisionOf;
    if g.players[i].hole == h.players[i].hole && g.board == h.board { SameView(g, h, i); }
    if ViewOf(g, i) == ViewOf(h, i) {
      assert ViewOf(g, i).own.hole == ViewOf(h, i).own.hole && ViewOf(g, i).board == ViewOf(h, i).board;
    }
  }

  // -------------------------------------------------- what a view shows

  /** The most a rival still in the hand can play for, or the seat's own chips without a rival. */
  lemma {:induction false} MostIs(ps: seq<Player>, S: set<nat>, low: int)
    ensures Most(ps, S, low) >= low
    ensures forall j: nat :: j < |ps| && j in S ==> ps[j].stack + ps[j].bet <= Most(ps, S, low)
    ensures Most(ps, S, low) == low || exists j: nat :: j < |ps| && j in S && ps[j].stack + ps[j].bet == Most(ps, S, low)
  {
    if |ps| > 0 {
      var k := |ps| - 1;
      MostIs(ps[..k], S, low);
      assert forall j: nat :: j < k ==> ps[..k][j] == ps[j];
      if Most(ps[..k], S, low) != low {
        var j: nat :| j < k && j in S && ps[..k][j].stack + ps[..k][j].bet == Most(ps[..k], S, low);
        assert ps[j].stack + ps[j].bet == Most(ps[..k], S, low);
      }
    }
  }

  /** What the seat plays for is at most its own chips, and no more than some rival can match. */
  lemma EffectiveIs(g: Game, i: nat)
    requires BetsOk(g) && i < |g.players|
    ensures var own, rivals, e := g.players[i].stack + g.players[i].bet, ContestedSeats(g.players) - {i}, Effective(g, i);
            && e <= own
            && (rivals == {} ==> e == own)
            && (rivals != {} ==> e == own || exists j: nat :: j in rivals && g.players[j].stack + g.players[j].bet == e)
            && (forall j: nat :: j in rivals ==> e == own || g.players[j].stack + g.players[j].bet <= e)
  {
    hide RoundOk;
    var rivals := ContestedSeats(g.players) - {i};
    MostIs(g.players, rivals, 0);
    if rivals != {} {
      var j :| j in rivals;
      assert SeatOk(g.players[j]);
      assert 0 <= g.players[j].stack + g.players[j].bet <= Most(g.players, rivals, 0);
    }
  }

  predicate ShowsSeat(v: SeatView, p: Player) {
    v.stack == p.stack && v.bet == p.bet && v.folded == p.folded && v.allIn == p.allIn && v.inSeat == p.inSeat
  }

  /** A seat in the hand is shown what it makes exactly from the flop on: the best of its cards and the board; the board is
      said to play exactly if all five of it score as much. */
  lemma ShowsMadeHand(g: Game, i: nat)
    requires HandOk(g) && i < |g.players| && g.players[i].inSeat
    ensures var own, cards := ViewOf(g, i).own, HandScoring.CardSet(g.players[i].hole + g.board);
            && (own.made.Some? <==> |g.board| >= 3)
            && (|g.board| >= 3 ==> Hand(cards) && own.made == Some(Evaluate(cards)))
            && (own.boardPlays <==> |g.board| == 5 && Hand(HandScoring.CardSet(g.board))
                                    && own.made == Some(Evaluate(HandScoring.CardSet(g.board))))
  {
    hide RoundOk, BetsOk, Evaluate, SeatViews, Legal, TurnOf, DecisionOf, PotOf;
    var cards := g.players[i].hole + g.board;
    FewCards(cards);
    FewCards(g.board);
    if |g.board| >= 3 { HandReady(g, i, g.board); }
  }

  lemma {:induction false} FewCards(cards: seq<Card>)
    ensures |HandScoring.CardSet(cards)| <= |cards|
  {
    if |cards| > 0 {
      var k := |cards| - 1;
      FewCards(cards[..k]);
      assert HandScoring.CardSet(cards) == HandScoring.CardSet(cards[..k]) + {cards[k]};
    }
  }

  /** Button and blinds are marked on their seats, the button before a blind. */
  predicate ShowsBadge(v: SeatView, g: Game, j: nat) {
    && (v.badge == Button <==> j == g.button)
    && (v.badge == SmallBlind <==> j != g.button && g.sbSeat == Some(j))
    && (v.badge == BigBlind <==> j != g.button && g.sbSeat != Some(j) && g.bbSeat == Some(j))
  }

  /** The turn shown to a seat: that it folded, that it is all-in, or whose turn it is; and its chips. */
  lemma TurnTells(g: Game, i: nat)
    requires BetsOk(g) && TurnsOk(g) && i < |g.players|
    ensures var v, p := TurnOf(g, i), g.players[i];
            && (v.state == YourTurn <==> g.actor == Some(i))
            && (v.state == FoldedWaiting <==> p.folded)
            && (v.state == AllInWaiting <==> p.allIn && !p.folded)
            && (v.state == OthersTurn <==> !p.folded && !p.allIn && g.actor.Some? && g.actor != Some(i))
            && v.stack == p.stack && v.bet == p.bet
  {
    assert g.actor == Some(i) ==> CanAct(g.players[i]);
  }

  /** Main result: a view tells the truth. Pot, stacks, bets, seats and the seat to act are the table's; the pot and the
      stacks shown make up all buy-ins; choices are offered exactly to the seat to act, and exactly the commands within
      them are taken; and what it says a call costs and leaves is what a call does. */
  lemma ViewTellsTruth(t: Table, i: nat, c: Command)
    requires TableOk(t) && t.phase == InHand && i < |t.ids|
    ensures i < |t.game.players|
    ensures var g, v := t.game, ViewOf(t.game, i);
            && v.handNo == g.handNo && v.street == g.street && v.board == g.board && v.own.hole == g.players[i].hole
            && v.button == g.button && v.sbSeat == g.sbSeat && v.bbSeat == g.bbSeat && v.actionOn == g.actor
            && v.events == g.events && v.pot == v.turn.pot == PotOf(g.players) && |v.seats| == |g.players|
            && (forall j :: 0 <= j < |v.seats| ==> ShowsSeat(v.seats[j], g.players[j]) && ShowsBadge(v.seats[j], g, j))
            && v.pot + Sum(Stacks(g.players)) == Sum(t.initial)
            && (v.legal.Some? <==> g.actor == Some(i)) && (v.decision.Some? <==> g.actor == Some(i))
            && (CommandCall(t, t.ids[i], c).Done? <==> v.legal.Some? && InRange(v.legal.value, c))
  {
    hide CommandCall, CardsOk, BetsOk, RoundOk, Legal, Act;
    if t.game.actor == Some(i) {
      NeverStuck(t, c);
    } else if CommandCall(t, t.ids[i], c).Done? {
      CommandIs(t, t.ids[i], c);
      SeatUnique(t.ids, i);
      SeatUnique(t.ids, t.game.actor.value);
    }
  }

  /** What the decision shown says of a call is what a call does. */
  lemma DecisionForetells(g: Game, i: nat)
    requires RoundOk(g) && g.actor == Some(i)
    ensures i < |g.players| && Act(g, i, Call).Ok?
    ensures var d, r := DecisionOf(g, i), Act(g, i, Call).value;
            && |r.players| == |g.players|
            && d.potNow == PotOf(g.players) && d.potAfterCall == PotOf(r.players)
            && d.stackAfterCall == r.players[i].stack && d.toCall == g.players[i].stack - r.players[i].stack
            && (d.canCheck <==> d.toCall == 0) && (d.callIsAllIn <==> d.toCall > 0 && r.players[i].stack == 0)
            && (d.canRaise <==> MayRaise(g, i)) && (d.canRaise ==> d.minTo == LeastTo(g, i) && d.maxTo == MostTo(g, i))
  {
    hide PotOf, ActedOk, ReopenOk;
    LegalIs(g, i);
    assert CanAct(g.players[i]);
    CallTaken(g, i);
    MoveDoes(g, i, Call);
    ActMoves(g, i, Call);
    PotGrows(g.players, Act(g, i, Call).value.players, i);
  }

  lemma CallTaken(g: Game, i: nat)
    requires i < |g.players| && g.actor == Some(i) && CanAct(g.players[i])
    ensures Act(g, i, Call).Ok?
  {
  }

  lemma PotGrows(ps: seq<Player>, qs: seq<Player>, i: nat)
    requires Moved(ps, qs, i)
    ensures PotOf(qs) == PotOf(ps) + ps[i].stack - qs[i].stack
  {
    SeatUpdate(ps, i, qs[i]);
  }
}
