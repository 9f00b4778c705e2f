/** `Engine` (holdem/engine.py) as the object it is: fields its methods update, each method proved against the state functions. */
module Engines {
  import opened Sets
  import opened Sums
  import opened Evaluator
  import opened HandScoring
  import opened Pots
  import opened Settlement
  import opened Awards
  import opened Game
  import opened Dealing
  import opened Settling
  import G = Game
  import S = Settling

  lemma OtherSeat(D: set<nat>, bb: nat, n: nat)
    requires |D| == 2 && forall i :: i in D ==> i < n
    ensures SeatIn(D - {bb}, n)
  {
    assert D <= (D - {bb}) + {bb};
    if D - {bb} == {} {
      SubsetSize(D, {bb});
    }
    HasSeat(D - {bb}, n);
  }

  lemma ClearedSeats(g: Game, cards: seq<Card>)
    requires G.Startable(g)
    ensures SeatIn(WithChips(g.players), |g.players|)
    ensures var c := Cleared(g, cards);
            c.button < |g.players| && c.sbSeat.Some? && c.sbSeat.value < |g.players| && c.bbSeat.Some? && c.bbSeat.value < |g.players|
  {
    HasSeat(WithChips(g.players), |g.players|);
    AdvanceFits(WithChips(g.players), PositionsOf(g), |g.players|);
  }

  lemma RaiseIs(g: Game, r: Game, i: nat, target: int)
    requires i < |g.players|
    requires var add := target - g.players[i].bet;
             && r.players == g.players[i := Commit(g.players[i], add)]
             && var p, size := r.players[i], r.players[i].bet - g.currentBet;
                var full := size >= g.minRaise;
                && r.events == g.events + [Acted(g.street, i, if g.currentBet == 0 then Bet else Raised, add, p.bet,
                                                 p.allIn, full, PotOf(r.players))]
                && r == if p.bet > g.currentBet then Grown(g.(players := r.players), i, size, full).(events := r.events)
                        else g.(players := r.players, events := r.events)
    ensures r == DoRaise(g, i, target) && |r.players| == |g.players|
  {
  }

  /** The hand in progress: players, cards, bets, and who is asked. */
  class Engine {
    const cfg: Config
    var players: seq<Player>
    var button: nat
    var bbSeat: Option<nat>
    var sbSeat: Option<nat>
    var deck: seq<Card>
    var board: seq<Card>
    var board2: Option<seq<Card>>
    var street: Street
    var currentBet: int
    var minRaise: int
    var need: set<nat>
    var actor: Option<nat>
    var handNo: nat
    var raises: nat
    var noRaise: set<nat>
    var actedAt: map<nat, int>
    var riverAggr: Option<nat>
    var events: seq<Event>

    /** The fields as one value. */
    function State(): (g: Game)
      reads this
    {
      Game(cfg, players, button, bbSeat, sbSeat, deck, board, board2, street, currentBet, minRaise, need, actor,
           handNo, raises, noRaise, actedAt, riverAggr, events)
    }

    constructor (cfg: Config, players: seq<Player>)
      requires |players| >= 1
      ensures State() == Game(cfg, players, |players| - 1, None, None, [], [], None, Idle, 0, cfg.bb, {}, None,
                              0, 0, {}, map[], None, [])
    {
      this.cfg, this.players, button := cfg, players, |players| - 1;
      bbSeat, sbSeat, deck, board, board2, street := None, None, [], [], None, Idle;
      currentBet, minRaise, need, actor, handNo, raises := 0, cfg.bb, {}, None, 0, 0;
      noRaise, actedAt, riverAggr, events := {}, map[], None, [];
    }

    // --------------------------------------------------------- queries

    /** `_seek`: the first seat still asked, from `start` on. */
    method SeekFrom(start: nat) returns (r: Option<nat>)
      requires start < |players|
      ensures r == Seek(need, start, |players|, |players|)
    {
      var n := |players|;
      var j: nat, k := start, 0;
      while k < n
        invariant 0 <= k <= n && j < n
        invariant Seek(need, start, n, n) == Seek(need, j, n, n - k)
      {
        if j in need {
          return Some(j);
        }
        j, k := NextSeat(j, n), k + 1;
      }
      r := None;
    }

    /** `_next`: the first seat of `S` after `i`, round the table. */
    method NextOf(S: set<nat>, i: nat) returns (r: nat)
      requires i < |players| && SeatIn(S, |players|)
      ensures r == NextIn(S, i, |players|)
    {
      var n := |players|;
      var j: nat := NextSeat(i, n);
      ghost var k := 0;
      NextInFinds(S, i, n);
      while j !in S
        invariant 0 <= k <= n && j < n
        invariant Seek(S, NextSeat(i, n), n, n) == Seek(S, j, n, n - k)
        decreases n - k
      {
        j := NextSeat(j, n);
        k := k + 1;
      }
      r := j;
    }

    /** The seats that can act. */
    method Actors() returns (s: set<nat>)
      ensures s == Movers(players)
    {
      s := {};
      for i := 0 to |players|
        invariant s == set k: nat | k < i && CanAct(players[k])
      {
        if CanAct(players[i]) {
          s := s + {i};
        }
      }
    }

    /** The seats still in the hand. */
    method Contested() returns (s: set<nat>)
      ensures s == ContestedSeats(players)
    {
      s := {};
      for i := 0 to |players|
        invariant s == set k: nat | k < i && IsContested(players[k])
      {
        if IsContested(players[i]) {
          s := s + {i};
        }
      }
    }

    /** `pot`. */
    method Pot() returns (t: int)
      ensures t == PotOf(players)
    {
      t := 0;
      var lives, deads := Lives(players), Deads(players);
      for i := 0 to |players|
        invariant t == Sum(lives[..i]) + Sum(deads[..i])
      {
        assert lives[..i + 1][..i] == lives[..i] && deads[..i + 1][..i] == deads[..i];
        t := t + players[i].totalLive + players[i].totalDead;
      }
      assert lives[..|players|] == lives && deads[..|players|] == deads;
    }

    /** `betting_locked`. */
    method BettingLocked() returns (b: bool)
      ensures b <==> |ContestedSeats(players)| > 1 && |Movers(players)| <= 1 && actor.None?
    {
      var left := Contested();
      var movers := Actors();
      b := |left| > 1 && |movers| <= 1 && actor.None?;
    }

    /** `legal`, branch by branch. */
    method LegalFor(i: nat) returns (l: LegalMoves)
      requires i < |players|
      ensures l == Legal(State(), i)
    {
      var p := players[i];
      var pot := Pot();
      var toCall := Min(Max(0, currentBet - p.bet), p.stack);
      var maxTo := p.bet + p.stack;
      var canRaise := p.stack > toCall && i !in noRaise;
      var minTo: int;
      if currentBet == 0 {
        minTo := Min(p.bet + cfg.bb, maxTo);
      } else {
        minTo := Min(currentBet + minRaise, maxTo);
      }
      if cfg.structure == FixedLimit {
        var unit := if street == Preflop || street == Flop then cfg.bb else 2 * cfg.bb;
        minTo := Min(currentBet + unit, maxTo);
        maxTo := minTo;
        if raises >= 4 {
          canRaise := false;
        }
      } else if cfg.structure == PotLimit {
        var afterCall := pot + Max(0, currentBet - p.bet);
        maxTo := Min(maxTo, Max(currentBet + afterCall, minTo));
      }
      if minTo > maxTo {
        minTo := maxTo;
      }
      l := LegalMoves(toCall, toCall == 0, canRaise && maxTo > currentBet, minTo, maxTo, pot, p.bet);
    }

    // ----------------------------------------------------------- moves

    method Emit(e: Event)
      modifies this`events
      ensures events == old(events) + [e]
    {
      events := events + [e];
    }

    /** `_commit`. */
    method CommitSeat(i: nat, amount: int)
      requires i < |players|
      modifies this`players
      ensures players == old(players)[i := Commit(old(players[i]), amount)]
    {
      var p := players[i];
      var amt := Max(0, Min(amount, p.stack));
      p := p.(stack := p.stack - amt, bet := p.bet + amt, totalLive := p.totalLive + amt);
      if p.stack == 0 {
        p := p.(allIn := true);
      }
      players := players[i := p];
    }

    method FoldSeat(i: nat)
      requires i < |players|
      modifies this`players, this`events
      ensures State() == DoFold(old(State()), i) && |players| == |old(players)|
    {
      players := players[i := players[i].(folded := true)];
      var pot := Pot();
      Emit(Acted(street, i, Folded, 0, players[i].bet, false, false, pot));
    }

    method CallSeat(i: nat, l: LegalMoves)
      requires i < |players| && l == Legal(State(), i)
      modifies this`players, this`events
      ensures State() == DoCall(old(State()), i) && |players| == |old(players)|
    {
      var amt := l.toCall;
      if amt == 0 {
        var pot := Pot();
        Emit(Acted(street, i, Checked, 0, players[i].bet, false, false, pot));
      } else {
        CommitSeat(i, amt);
        var pot := Pot();
        Emit(Acted(street, i, Called, amt, players[i].bet, players[i].allIn, false, pot));
      }
    }

    /** The loop over the seats behind a short all-in. */
    method Restrict(behind: set<nat>)
      modifies this`noRaise, this`need
      ensures noRaise == Restricted(old(noRaise), behind, actedAt, currentBet, minRaise) && need == old(need) + behind
    {
      var rest := behind;
      ghost var done: set<nat> := {};
      while rest != {}
        invariant done + rest == behind && done !! rest
        invariant noRaise == Restricted(old(noRaise), done, actedAt, currentBet, minRaise) && need == old(need)
        decreases rest
      {
        var q :| q in rest;
        if q in actedAt {
          if currentBet - actedAt[q] >= minRaise {
            noRaise := noRaise - {q};
          } else {
            noRaise := noRaise + {q};
          }
        }
        rest, done := rest - {q}, done + {q};
      }
      assert done == behind;
      need := need + behind;
    }

    /** The seats behind a short all-in. */
    method SeatsBehind(i: nat) returns (behind: set<nat>)
      ensures behind == Behind(players, i, currentBet)
    {
      behind := {};
      for q := 0 to |players|
        invariant behind == set k: nat | k < q && CanAct(players[k]) && k != i && players[k].bet < currentBet
      {
        if CanAct(players[q]) && q != i && players[q].bet < currentBet {
          behind := behind + {q};
        }
      }
    }

    method RaiseSeat(i: nat, target: int)
      requires i < |players|
      modifies this
      ensures State() == DoRaise(old(State()), i, target) && |players| == |old(players)|
    {
      hide Commit, Grown, PotOf, Restricted, Behind, Movers, DoRaise;
      var add := target - players[i].bet;
      var opening := currentBet == 0;
      CommitSeat(i, add);
      var size := players[i].bet - currentBet;
      var full := size >= minRaise;
      if players[i].bet > currentBet {
        if full {
          FullRaise(i, size);
        } else {
          ShortRaise(i, size);
        }
      }
      var pot := Pot();
      Emit(Acted(street, i, if opening then Bet else Raised, add, players[i].bet, players[i].allIn, full, pot));
      RaiseIs(old(State()), State(), i, target);
    }

    /** The bet has grown. */
    method CountRaise(i: nat)
      requires i < |players|
      modifies this`currentBet, this`raises, this`riverAggr
      ensures currentBet == players[i].bet && raises == old(raises) + 1
      ensures riverAggr == if street == River then Some(i) else old(riverAggr)
    {
      currentBet := players[i].bet;
      raises := raises + 1;
      if street == River {
        riverAggr := Some(i);
      }
    }

    /** By a full raise: everybody is asked again. */
    method FullRaise(i: nat, size: int)
      requires i < |players|
      modifies this`currentBet, this`raises, this`riverAggr, this`minRaise, this`noRaise, this`need
      ensures State() == Grown(old(State()), i, size, true)
    {
      hide Movers;
      CountRaise(i);
      minRaise := size;
      noRaise := {};
      need := Actors();
    }

    /** By an all-in that is short of one: the seats behind are asked again. */
    method ShortRaise(i: nat, size: int)
      requires i < |players|
      modifies this`currentBet, this`raises, this`riverAggr, this`noRaise, this`need
      ensures State() == Grown(old(State()), i, size, false)
    {
      hide Restricted, Behind;
      CountRaise(i);
      var behind := SeatsBehind(i);
      Restrict(behind);
    }

    /** The end of `act`: the seat has acted and the turn passes. */
    method PassTurn(i: nat)
      requires i < |players|
      modifies this`actedAt, this`need, this`actor
      ensures State() == Finish(old(State()), i)
    {
      actedAt := actedAt[i := players[i].bet];
      need := need - {i};
      actor := SeekFrom(NextSeat(i, |players|));
    }

    /** `act`: the move as the rules have it, or a refusal that leaves every field alone. */
    method Act(i: int, action: Action) returns (ok: bool)
      modifies this
      ensures match G.Act(old(State()), i, action)
              case Ok(g) => ok && State() == g
              case Refused => !ok && State() == old(State())
    {
      hide Legal, DoFold, DoCall, DoRaise, Finish;
      if !(0 <= i < |players|) || actor != Some(i) || !CanAct(players[i]) {
        return false;
      }
      var l := LegalFor(i);
      match action {
        case Fold =>
          FoldSeat(i);
        case Call =>
          CallSeat(i, l);
        case Raise(amount) =>
          if !l.canRaise || (cfg.structure != FixedLimit && !(l.minTo <= amount <= l.maxTo)) {
            return false;
          }
          var target := Min(amount, l.maxTo);
          if target < l.minTo {
            target := l.minTo;
          }
          if target - players[i].bet <= 0 {
            CallSeat(i, l);
          } else {
            RaiseSeat(i, target);
          }
      }
      PassTurn(i);
      ok := true;
    }

    // --------------------------------------------------------- streets

    /** Has every seat that can act bet the current bet? */
    method AllLevel() returns (level: bool)
      ensures level <==> forall i :: i in Movers(players) ==> players[i].bet == currentBet
    {
      level := true;
      for i := 0 to |players|
        invariant level <==> forall k: nat :: k < i && CanAct(players[k]) ==> players[k].bet == currentBet
      {
        if CanAct(players[i]) && players[i].bet != currentBet {
          level := false;
        }
      }
    }

    /** `_open_round`. */
    method OpenBetting(first: nat)
      requires first < |players|
      modifies this`noRaise, this`actedAt, this`need, this`actor
      ensures State() == OpenRound(old(State()), first)
    {
      hide Movers;
      ghost var g := State();
      noRaise, actedAt := {}, map[];
      var movers := Actors();
      var level := AllLevel();
      if |movers| < 2 && level {
        need, actor := {}, None;
      } else {
        need := movers;
        actor := SeekFrom(first);
      }
      assert State() == g.(noRaise := {}, actedAt := map[], need := need, actor := actor);
    }

    /** `Deck.deal`: the last cards, taken off the deck. */
    method DealCards(k: nat) returns (cards: seq<Card>)
      requires k <= |deck|
      modifies this`deck
      ensures cards == TopCards(old(deck), k) && deck == old(deck)[..|old(deck)| - k]
    {
      cards := deck[|deck| - k..];
      deck := deck[..|deck| - k];
    }

    method ClearAllBets()
      modifies this`players
      ensures players == ClearBets(old(players))
    {
      for i := 0 to |players|
        invariant |players| == |old(players)|
        invariant forall k :: 0 <= k < |players| ==>
                    players[k] == if k < i then old(players)[k].(bet := 0) else old(players)[k]
      {
        players := players[i := players[i].(bet := 0)];
      }
    }

    /** A new street starts without bets. */
    method ClearRound()
      modifies this`players, this`currentBet, this`minRaise, this`raises
      ensures players == ClearBets(old(players)) && currentBet == 0 && minRaise == cfg.bb && raises == 0
    {
      ClearAllBets();
      currentBet, minRaise, raises := 0, cfg.bb, 0;
    }

    method DealBoard(k: nat)
      requires k <= |deck|
      modifies this`board, this`deck
      ensures board == old(board) + TopCards(old(deck), k) && deck == old(deck)[..|old(deck)| - k]
    {
      var cards := DealCards(k);
      board := board + cards;
    }

    method DealNext()
      requires DealCount(street) <= |deck|
      modifies this`players, this`currentBet, this`minRaise, this`raises, this`board, this`deck, this`street
      ensures State() == DealStreet(old(State()))
    {
      hide DealCount, StreetAfter, TopCards, ClearBets;
      ClearRound();
      DealBoard(DealCount(street));
      street := StreetAfter(street);
    }

    /** `next_street`. */
    method NextStreet()
      requires DealCount(street) <= |deck| && button < |players|
      modifies this
      ensures State() == G.NextStreet(old(State()))
    {
      hide OpenRound, ClearBets, TopCards;
      var last := street == River;
      DealNext();
      if last {
        return;
      }
      Emit(BoardDealt(street, board));
      OpenBetting(NextSeat(button, |players|));
    }

    // -------------------------------------------------------- new hand

    /** `_advance_positions` among the seats dealt in. */
    method AdvancePositions(live: set<nat>)
      requires G.Startable(State()) && live == WithChips(players)
      modifies this`button, this`sbSeat, this`bbSeat
      ensures SeatIn(live, |players|) && Positions(button, sbSeat, bbSeat) == Advance(live, old(PositionsOf(State())), |players|)
    {
      HasSeat(live, |players|);
      if bbSeat.None? {
        button := NextOf(live, button);
        var next := NextOf(live, button);
        if |live| == 2 {
          sbSeat, bbSeat := Some(button), Some(next);
        } else {
          var after := NextOf(live, next);
          sbSeat, bbSeat := Some(next), Some(after);
        }
      } else {
        MoveBlinds(live, bbSeat.value);
      }
    }

    /** The big blind moves on one seat; the small blind and the button trail it. */
    method MoveBlinds(live: set<nat>, prev: nat)
      requires prev < |players| && SeatIn(live, |players|) && forall i :: i in live ==> i < |players|
      modifies this`button, this`sbSeat, this`bbSeat
      ensures Positions(button, sbSeat, bbSeat)
           == Advance(live, Positions(old(button), old(sbSeat), Some(prev)), |players|)
      requires button < |players|
    {
      var bb := NextOf(live, prev);
      bbSeat := Some(bb);
      if |live| == 2 {
        OtherSeat(live, bb, |players|);
        var other := NextOf(live - {bb}, bb);
        sbSeat, button := Some(other), other;
      } else {
        button := if sbSeat.Some? then sbSeat.value else button;
        sbSeat := Some(prev);
      }
    }

    method ResetSeats()
      modifies this`players
      ensures players == ResetAll(old(players))
    {
      for i := 0 to |players|
        invariant |players| == |old(players)|
        invariant forall k :: 0 <= k < |players| ==>
                    players[k] == if k < i then Reset(old(players)[k]) else old(players)[k]
      {
        players := players[i := Reset(players[i])];
      }
    }

    method ClearCards(cards: seq<Card>)
      modifies this`deck, this`board, this`board2, this`street
      ensures deck == cards && board == [] && board2 == None && street == Preflop
    {
      deck, board, board2, street := cards, [], None, Preflop;
    }

    method ClearBetting()
      modifies this`currentBet, this`minRaise, this`raises, this`riverAggr
      ensures currentBet == 0 && minRaise == cfg.bb && raises == 0 && riverAggr == None
    {
      currentBet, minRaise, raises, riverAggr := 0, cfg.bb, 0, None;
    }

    method CountHand()
      modifies this`handNo, this`events
      ensures handNo == old(handNo) + 1
      ensures events == [HandStarted(handNo, cfg.sb, cfg.bb, if cfg.bbAnte then cfg.bb else 0)]
    {
      handNo := handNo + 1;
      events := [HandStarted(handNo, cfg.sb, cfg.bb, if cfg.bbAnte then cfg.bb else 0)];
    }

    /** Positions moved and the table cleared. */
    method ClearTable(cards: seq<Card>, live: set<nat>)
      requires G.Startable(State()) && live == WithChips(players)
      modifies this
      ensures State() == Cleared(old(State()), cards)
    {
      hide Advance, WithChips, G.Startable;
      AdvancePositions(live);
      ResetSeats();
      ClearCards(cards);
      ClearBetting();
      CountHand();
    }

    /** `_post`. */
    method PostBlind(i: nat, amount: int)
      requires i < |players|
      modifies this`players, this`events
      ensures State() == Post(old(State()), i, amount) && |players| == |old(players)|
    {
      hide PotOf, Commit;
      var amt := Min(amount, players[i].stack);
      CommitSeat(i, amt);
      var pot := Pot();
      Emit(BlindPosted(i, amt, players[i].allIn, false, pot));
    }

    /** `_post_dead`. */
    method PostAnte(i: nat, amount: int)
      requires i < |players|
      modifies this`players, this`events
      ensures State() == PostDead(old(State()), i, amount) && |players| == |old(players)|
    {
      hide PotOf;
      var p := players[i];
      var amt := Min(amount, p.stack);
      p := p.(stack := p.stack - amt, totalDead := p.totalDead + amt);
      if p.stack == 0 {
        p := p.(allIn := true);
      }
      players := players[i := p];
      var pot := Pot();
      Emit(BlindPosted(i, amt, players[i].allIn, true, pot));
    }

    method PostBlinds()
      requires sbSeat.Some? && sbSeat.value < |players| && bbSeat.Some? && bbSeat.value < |players|
      modifies this`players, this`events
      ensures State() == PostBig(PostSmall(old(State()))) && |players| == |old(players)|
    {
      hide Post, PostDead;
      PostSmallBlind();
      PostBlind(bbSeat.value, cfg.bb);
      if cfg.bbAnte {
        PostAnte(bbSeat.value, cfg.bb);
      }
    }

    method PostSmallBlind()
      requires sbSeat.Some? && sbSeat.value < |players|
      modifies this`players, this`events
      ensures State() == PostSmall(old(State())) && |players| == |old(players)|
    {
      if players[sbSeat.value].inSeat {
        PostBlind(sbSeat.value, cfg.sb);
      } else {
        Emit(BlindDead);
      }
    }

    method LargestBet() returns (m: int)
      ensures m == MaxBet(players)
    {
      m := 0;
      for i := 0 to |players|
        invariant m == MaxBet(players[..i])
      {
        assert players[..i + 1][..i] == players[..i];
        m := Max(m, players[i].bet);
      }
      assert players[..|players|] == players;
    }

    /** Seats in dealing order. */
    method DealOrder(live: set<nat>) returns (order: seq<nat>)
      requires button < |players|
      ensures order == Collect(live, NextSeat(button, |players|), |players|, |players|)
    {
      hide Collect;
      var n := |players|;
      var j: nat, k := NextSeat(button, n), 0;
      order := [];
      while k < n
        invariant 0 <= k <= n && j < n
        invariant Collect(live, NextSeat(button, n), n, n) == order + Collect(live, j, n, n - k)
      {
        CollectTurn(live, j, n, n - k, order);
        if j in live {
          order := order + [j];
        }
        j, k := NextSeat(j, n), k + 1;
      }
      CollectNone(live, j, n);
    }

    /** One card to each seat. */
    method DealRound(order: seq<nat>)
      requires Seats(order, |players|) && |order| <= |deck|
      modifies this`players, this`deck
      ensures Deal(players, deck) == DealOne(Deal(old(players), old(deck)), order)
    {
      for k := 0 to |order|
        invariant |players| == |old(players)| && |deck| >= |order| - k
        invariant DealOne(Deal(players, deck), order[k..]) == DealOne(Deal(old(players), old(deck)), order)
      {
        assert order[k..][0] == order[k] && order[k..][1..] == order[k + 1..];
        ghost var last := deck[|deck| - 1];
        var cards := DealCards(1);
        assert cards == [last];
        players := players[order[k] := players[order[k]].(hole := players[order[k]].hole + cards)];
      }
    }

    method DealHands(live: set<nat>)
      requires button < |players| && |deck| >= 2 * |players|
      modifies this`players, this`deck
      ensures State() == DealHoles(old(State()), live)
    {
      hide DealOne, Collect;
      var order := DealOrder(live);
      CollectBound(live, NextSeat(button, |players|), |players|, |players|);
      DealRound(order);
      DealRound(order);
    }

    /** `start_hand`. */
    method StartHand(cards: seq<Card>)
      requires G.Startable(State()) && |cards| >= 2 * |players|
      modifies this
      ensures State() == G.StartHand(old(State()), cards)
    {
      hide G.Startable, Cleared, PostBig, PostSmall, DealHoles, OpenRound, Advance;
      var live := Funded();
      ClearedSeats(State(), cards);
      ClearTable(cards, live);
      PostBlinds();
      var largest := LargestBet();
      currentBet := Max(cfg.bb, largest);
      DealHands(live);
      var first := button;
      if |live| != 2 {
        first := NextOf(live, bbSeat.value);
      }
      OpenBetting(first);
    }

    /** The seats with chips. */
    method Funded() returns (s: set<nat>)
      ensures s == WithChips(players)
    {
      s := {};
      for i := 0 to |players|
        invariant s == set k: nat | k < i && players[k].stack > 0
      {
        if players[i].stack > 0 {
          s := s + {i};
        }
      }
    }

    // ------------------------------------------------------ settlement

    /** Step 1 of `settle`. */
    method ReturnUncalled()
      modifies this`players
      ensures State() == Refunded(old(State()))
    {
      var refund := Uncalled(Lives(players));
      if refund.Some? {
        var i, back := refund.value.seat, refund.value.chips;
        var p := players[i];
        players := players[i := p.(totalLive := p.totalLive - back, stack := p.stack + back, allIn := p.stack + back == 0)];
      }
    }

    /** `while len(self.board) < 5: self.next_street()`. */
    method RunBoard()
      requires Runnable(State())
      modifies this
      ensures State() == RunOut(old(State()))
    {
      hide G.NextStreet;
      while |board| < 5
        invariant Runnable(State()) && RunOut(State()) == RunOut(old(State()))
        decreases 5 - |board|
      {
        StreetStep(State());
        NextStreet();
      }
    }

    /** The same board twice: the second run right below the first. */
    method RunBoardTwice()
      requires |board| <= 5 && |deck| >= 2 * (5 - |board|)
      modifies this`board, this`board2, this`deck
      ensures State() == RunTwice(old(State()))
    {
      var base, n := board, 5 - |board|;
      var first := DealCards(n);
      var second := DealCards(n);
      board := base + first;
      board2 := Some(base + second);
    }

    /** Step 2 of `settle`. */
    method CompleteBoard(twice: bool)
      requires Runnable(State()) && |deck| >= 2 * (5 - |board|)
      modifies this
      ensures State() == BoardDone(old(State()), twice)
    {
      hide RunOut, RunTwice;
      var left := Contested();
      if |left| > 1 {
        if twice && |board| < 5 {
          RunBoardTwice();
        } else {
          RunBoard();
          street := Showdown;
        }
      }
    }

    /** Step 3 of `settle`: the score of every seat left, on one board. */
    method ScoreBoard(alive: seq<nat>, cards: seq<Card>, straights: map<nat, int>) returns (sc: Scores)
      requires HandScoring.TableOk(straights) && Seats(alive, |players|)
      requires forall i :: i in alive ==> i < |players| && Dealt(players[i].hole + cards) && Hand(CardSet(players[i].hole + cards))
      ensures sc == BoardScores(players, alive, cards)
    {
      sc := map[];
      for k := 0 to |alive|
        invariant sc.Keys == set i | i in alive[..k]
        invariant forall i :: i in sc ==> i in alive && sc[i] == Evaluate(CardSet(players[i].hole + cards))
      {
        var i := alive[k];
        assert i in alive;
        assert alive[..k + 1] == alive[..k] + [i];
        var score := EvaluateCards(players[i].hole + cards, straights);
        sc := sc[i := score];
      }
      assert alive[..|alive|] == alive;
      assert sc.Keys == BoardScores(players, alive, cards).Keys;
    }

    /** One winner list's chips: equal shares, then the odd chips one by one from the button. */
    method AwardRun(winners: seq<nat>, amount: int)
      requires Winners(winners, |players|) && button < |players|
      modifies this`players
      ensures players == Credited(old(players), Share(Stacks(old(players)), winners, amount, button))
    {
      hide Credited, OddChips;
      ghost var start := Stacks(players);
      var share, rem := amount / |winners|, amount % |winners|;
      ghost var chips := start;
      CreditedNone(players);
      for k := 0 to |winners|
        invariant |chips| == |start| && chips == PayEach(start, winners[..k], share)
        invariant players == Credited(old(players), chips)
      {
        assert winners[..k + 1][..k] == winners[..k];
        var i := winners[k];
        CreditOne(old(players), chips, i, share);
        players := players[i := players[i].(won := players[i].won + share, stack := players[i].stack + share)];
        chips := chips[i := chips[i] + share];
      }
      assert winners[..|winners|] == winners;
      OddOnes(winners, rem, old(players), chips);
    }

    method OddOnes(winners: seq<nat>, odd: nat, ghost was: seq<Player>, ghost before: seq<int>)
      requires Winners(winners, |players|) && button < |players| && |was| == |before| == |players|
      requires players == Credited(was, before)
      modifies this`players
      ensures players == Credited(was, OddChips(before, winners, button, odd))
    {
      hide Credited;
      var j: nat, rem := button, odd;
      ghost var chips := before;
      while rem > 0
        invariant j < |players| == |chips| == |was|
        invariant OddChips(chips, winners, j, rem) == OddChips(before, winners, button, odd)
        invariant players == Credited(was, chips)
        decreases rem, Steps(j, winners[0], |players|)
      {
        j := NextSeat(j, |players|);
        if j in winners {
          CreditOne(was, chips, j, 1);
          players := players[j := players[j].(won := players[j].won + 1, stack := players[j].stack + 1)];
          chips := chips[j := chips[j] + 1];
          rem := rem - 1;
        }
      }
    }

    /** Step 5 of `settle` for one pot: its chips split over the runs. */
    method AwardOne(alive: seq<nat>, pot: Pot, runs: seq<Scores>)
      requires Awardable(pot, |players|, alive, runs) && |alive| > 0 && (|alive| > 1 ==> |runs| > 0) && button < |players|
      modifies this`players
      ensures players == Credited(old(players), AwardPot(Stacks(old(players)), alive, pot, runs, button))
    {
      hide Awardable, Credited, Share, RunWinners, RunAmount, RunCount;
      var count := RunCount(alive, runs);
      CreditedNone(players);
      for r := 0 to count
        invariant players == Credited(old(players), AwardRuns(Stacks(old(players)), alive, pot, runs, button, r))
      {
        ghost var before := AwardRuns(Stacks(old(players)), alive, pot, runs, button, r);
        RunReady(alive, pot, runs, r, |players|);
        var winners := RunWinners(alive, pot.eligible, runs, r);
        CreditedTwice(old(players), before, Share(before, winners, RunAmount(pot.amount, count, r), button));
        AwardRun(winners, RunAmount(pot.amount, count, r));
      }
    }

    method AwardAll(alive: seq<nat>, pots: seq<Pot>, runs: seq<Scores>)
      requires AllAwardable(pots, |players|, alive, runs) && |alive| > 0 && (|alive| > 1 ==> |runs| > 0) && button < |players|
      modifies this`players
      ensures players == Credited(old(players), AwardPots(Stacks(old(players)), alive, pots, runs, button))
    {
      hide Awardable;
      CreditedNone(players);
      for k := 0 to |pots|
        invariant players == Credited(old(players), AwardPots(Stacks(old(players)), alive, pots[..k], runs, button))
      {
        assert pots[..k + 1][..k] == pots[..k];
        ghost var before := AwardPots(Stacks(old(players)), alive, pots[..k], runs, button);
        CreditedTwice(old(players), before, AwardPot(before, alive, pots[k], runs, button));
        AwardOne(alive, pots[k], runs);
      }
      assert pots[..|pots|] == pots;
    }

    method ClearSeats()
      modifies this`players
      ensures players == Emptied(old(players))
    {
      for i := 0 to |players|
        invariant |players| == |old(players)|
        invariant forall k :: 0 <= k < |players| ==>
                    players[k] == if k < i then old(players)[k].(totalLive := 0, totalDead := 0, bet := 0) else old(players)[k]
      {
        players := players[i := players[i].(totalLive := 0, totalDead := 0, bet := 0)];
      }
    }

    /** Step 3 of `settle`: one run, or two. */
    method ScoreRuns(alive: seq<nat>, straights: map<nat, int>) returns (runs: seq<Scores>)
      requires HandScoring.TableOk(straights) && Seats(alive, |players|) && (|alive| > 1 ==> Readable(State(), alive))
      ensures |alive| > 1 ==> Comparable(State(), alive)
      ensures runs == RunsOf(State(), alive)
    {
      runs := [];
      if |alive| > 1 {
        assert board in Boards(State());
        var first := ScoreBoard(alive, board, straights);
        runs := [first];
        if board2.Some? {
          assert board2.value in Boards(State());
          var second := ScoreBoard(alive, board2.value, straights);
          runs := runs + [second];
        }
      }
    }

    /** `settle`. */
    method Settle(twice: bool, straights: map<nat, int>)
      requires Settleable(State()) && HandScoring.TableOk(straights)
      modifies this
      ensures State() == S.Settle(old(State()), twice).game
    {
      hide Settleable, Refunded, BoardDone, RunsOf, PotLayers, AllAwardable, AwardPots, S.Settle, Readable, Alive;
      ghost var g := State();
      SettleSteps(g, twice);
      ReturnUncalled();
      var alive := Alive(players);
      CompleteBoard(twice);
      SettleAwards(g, twice);
      var runs := ScoreRuns(alive, straights);
      PayAll(alive, runs);
      PaidIs(BoardDone(Refunded(g), twice).players, Award(BoardDone(Refunded(g), twice), alive, runs));
    }

    /** Steps 4 and 5 of `settle`, and the table cleared. */
    method PayAll(alive: seq<nat>, runs: seq<Scores>)
      requires Awarding(State(), alive, runs)
      modifies this`players, this`street
      ensures State() == old(State()).(players := Emptied(Credited(old(players), Award(old(State()), alive, runs))), street := Idle)
    {
      hide PotLayers, AllAwardable, AwardPots;
      var pots := ComputePots(Lives(players), Deads(players), alive);
      AwardAll(alive, pots, runs);
      ClearSeats();
      street := Idle;
    }
  }

  ghost predicate Awarding(g: Game, alive: seq<nat>, runs: seq<Scores>) {
    && Nonneg(Lives(g.players)) && Nonneg(Deads(g.players)) && Winners(alive, |g.players|) && g.button < |g.players|
    && (|alive| > 1 ==> |runs| > 0)
    && AllAwardable(PotLayers(Lives(g.players), Deads(g.players), alive), |g.players|, alive, runs)
  }

  /** The stacks once the pots are awarded. */
  ghost function Award(g: Game, alive: seq<nat>, runs: seq<Scores>): (chips: seq<int>)
    requires Awarding(g, alive, runs)
    ensures |chips| == |g.players|
  {
    AwardPots(Stacks(g.players), alive, PotLayers(Lives(g.players), Deads(g.players), alive), runs, g.button)
  }

  lemma SettleSteps(g: Game, twice: bool)
    requires Settleable(g)
    ensures var g1 := Refunded(g);
            Alive(g1.players) == Alive(g.players) && Runnable(g1) && |g1.deck| >= 2 * (5 - |g1.board|)
  {
    RefundedFacts(g);
    SettleReady(g, twice);
  }

  /** The board leaves the chips alone. */
  lemma BoardDoneChips(g: Game, twice: bool)
    requires Runnable(g) && |g.deck| >= 2 * (5 - |g.board|)
    ensures var d := BoardDone(g, twice);
            d.button == g.button && Stacks(d.players) == Stacks(g.players) && Lives(d.players) == Lives(g.players)
            && Deads(d.players) == Deads(g.players)
  {
    RunOutFrame(g);
    assert Stacks(BoardDone(g, twice).players) == Stacks(g.players);
    assert Lives(BoardDone(g, twice).players) == Lives(g.players);
    assert Deads(BoardDone(g, twice).players) == Deads(g.players);
  }

  lemma BoardDoneReadable(g: Game, twice: bool)
    requires CardsOk(g) && g.button < |g.players| && g.board2.None? && |Alive(g.players)| > 1
    ensures Readable(BoardDone(g, twice), Alive(g.players))
  {
    var alive, d := Alive(g.players), BoardDone(g, twice);
    RunOutBoard(g);
    AliveCount(g.players);
    forall b, i | b in Boards(d) && i in alive
      ensures i < |d.players| && Dealt(d.players[i].hole + b) && Hand(CardSet(d.players[i].hole + b))
    {
      BoardDoneCards(g, twice, b);
      HandReady(g, i, b);
    }
  }

  lemma SettleAwards(g: Game, twice: bool)
    requires Settleable(g)
    ensures var g1, alive := Refunded(g), Alive(g.players);
            && Runnable(g1) && |g1.deck| >= 2 * (5 - |g1.board|)
            && var g2 := BoardDone(g1, twice);
               && Seats(alive, |g2.players|)
               && (|alive| > 1 ==> Readable(g2, alive) && Comparable(g2, alive))
               && Awarding(g2, alive, RunsOf(g2, alive))
               && S.Settle(g, twice).game == g2.(players := Paid(g2.players, Award(g2, alive, RunsOf(g2, alive))), street := Idle)
  {
    var g1, alive := Refunded(g), Alive(g.players);
    RefundedFacts(g);
    SettleReady(g, twice);
    BoardDoneChips(g1, twice);
    if |alive| > 1 { BoardDoneReadable(g1, twice); }
    SettleAwarding(g, BoardDone(g1, twice), RunsOf(BoardDone(g1, twice), alive));
  }

  lemma SettleAwarding(g: Game, g2: Game, runs: seq<Scores>)
    requires Settleable(g) && RunsScored(Alive(g.players), runs) && g2.button == g.button
    requires InHand(Stacks(g.players), Lives(g.players), Deads(g.players), Alive(g.players), g.button)
    requires var refund := Uncalled(Lives(g.players));
             && Lives(g2.players) == TakeBack(Lives(g.players), refund, -1)
             && Stacks(g2.players) == TakeBack(Stacks(g.players), refund, 1) && Deads(g2.players) == Deads(g.players)
    ensures Awarding(g2, Alive(g.players), runs)
    ensures SettleChips(Stacks(g.players), Lives(g.players), Deads(g.players), Alive(g.players), runs, g.button).stacks
         == Award(g2, Alive(g.players), runs)
  {
    hide PotLayers, AllAwardable, AwardPots, CardsOk;
    RefundFits(Lives(g.players));
    var alive := Alive(g.players);
    PotsAwardable(Lives(g2.players), Deads(g2.players), alive, runs, PotLayers(Lives(g2.players), Deads(g2.players), alive));
  }

  ghost predicate Readable(g: Game, alive: seq<nat>) {
    forall b, i :: b in Boards(g) && i in alive ==>
      i < |g.players| && Dealt(g.players[i].hole + b) && Hand(CardSet(g.players[i].hole + b))
  }

  function Emptied(ps: seq<Player>): (r: seq<Player>)
    ensures |r| == |ps| && forall i :: 0 <= i < |r| ==> r[i] == ps[i].(totalLive := 0, totalDead := 0, bet := 0)
  {
    seq(|ps|, i requires 0 <= i < |ps| => ps[i].(totalLive := 0, totalDead := 0, bet := 0))
  }

  lemma PaidIs(ps: seq<Player>, chips: seq<int>)
    requires |chips| == |ps|
    ensures Emptied(Credited(ps, chips)) == Paid(ps, chips)
  {
  }

  lemma RunReady(alive: seq<nat>, pot: Pot, runs: seq<Scores>, r: nat, n: nat)
    requires Awardable(pot, n, alive, runs) && |alive| > 0 && r < RunCount(alive, runs) && (|alive| > 1 ==> |runs| > 0)
    ensures |alive| == 1 || (r < |runs| && |pot.eligible| > 0 && Scored(pot.eligible, runs[r]))
    ensures Winners(RunWinners(alive, pot.eligible, runs, r), n)
  {
    RunWinnersFit(alive, pot, runs, r, n);
  }

  /** Players with the given stacks, what they gained counted as won. */
  function Credited(ps: seq<Player>, chips: seq<int>): (r: seq<Player>)
    requires |chips| == |ps|
    ensures |r| == |ps|
    ensures forall i :: 0 <= i < |r| ==> r[i] == ps[i].(stack := chips[i], won := ps[i].won + chips[i] - ps[i].stack)
  {
    seq(|ps|, i requires 0 <= i < |ps| => ps[i].(stack := chips[i], won := ps[i].won + chips[i] - ps[i].stack))
  }

  lemma CreditedNone(ps: seq<Player>)
    ensures Credited(ps, Stacks(ps)) == ps
  {
  }

  lemma CreditOne(ps: seq<Player>, chips: seq<int>, i: nat, d: int)
    requires |chips| == |ps| && i < |ps|
    ensures var p := Credited(ps, chips)[i];
            Credited(ps, chips)[i := p.(won := p.won + d, stack := p.stack + d)] == Credited(ps, chips[i := chips[i] + d])
  {
  }

  lemma CreditedTwice(ps: seq<Player>, a: seq<int>, b: seq<int>)
    requires |a| == |ps| == |b|
    ensures Credited(Credited(ps, a), b) == Credited(ps, b) && Stacks(Credited(ps, a)) == a
  {
  }
}
