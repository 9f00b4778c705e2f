/** What a started hand looks like (`start_hand` in holdem/engine.py): blinds, cards and the first to act. */
module Opening {
  import opened Sums
  import opened Evaluator
  import opened Pots
  import opened Settlement
  import opened Game
  import opened Betting
  import opened Dealing
  import opened Table
  import opened Blinds

  // -------------------------------------------------------------- blinds

  /** What seat `i` posts live: the big blind, the small blind if it is in the hand, or what its stack holds of it. */
  function LivePost(cfg: Config, stack: int, small: bool, big: bool): (b: int) {
    if big then Min(cfg.bb, stack) else if small && stack > 0 then Min(cfg.sb, stack) else 0
  }

  function DeadPost(cfg: Config, stack: int, big: bool): (b: int) {
    if big && cfg.bbAnte then Min(cfg.bb, stack - Min(cfg.bb, stack)) else 0
  }

  predicate PostedAs(cfg: Config, p: Player, stack: int, small: bool, big: bool) {
    && p.bet == p.totalLive == LivePost(cfg, stack, small, big) && p.totalDead == DeadPost(cfg, stack, big)
    && p.stack == stack - p.bet - p.totalDead
  }

  lemma SmallPosted(g: Game, i: nat)
    requires ClearTable(g) && i < |g.players| && g.players[i] == Reset(g.players[i])
    requires g.players[g.sbSeat.value] == Reset(g.players[g.sbSeat.value])
    ensures var p, q := g.players[i], PostSmall(g).players[i];
            var b := if g.sbSeat == Some(i) && p.stack > 0 then Min(g.cfg.sb, p.stack) else 0;
            q.bet == b && q.totalLive == b && q.totalDead == 0 && q.stack == p.stack - b && q.inSeat == p.inSeat
  {
    assert Reset(g.players[i]).bet == 0 && Reset(g.players[i]).totalLive == 0;
  }

  lemma BigPosted(g: Game, i: nat)
    requires g.bbSeat.Some? && g.bbSeat.value < |g.players| && i < |g.players| && g.cfg.bb > 0 && g.players[i].stack >= 0
    ensures var p, q, big := g.players[i], PostBig(g).players[i], g.bbSeat == Some(i);
            var b, a := if big then Min(g.cfg.bb, p.stack) else 0, DeadPost(g.cfg, p.stack, big);
            q.bet == p.bet + b && q.totalLive == p.totalLive + b && q.totalDead == p.totalDead + a && q.stack == p.stack - b - a
  {
  }

  /** Each seat has put in exactly its blind and its ante, or its whole stack, and the price of a call is one big blind. */
  lemma BlindsTaken(g: Game, deck: seq<Card>, i: nat)
    requires IdleOk(g) && PositionsOk(g) && |WithChips(g.players)| >= 2 && |deck| >= 2 * |g.players| && i < |g.players|
    ensures Startable(g)
    ensures var r := StartHand(g, deck);
            && PostedAs(g.cfg, r.players[i], g.players[i].stack, r.sbSeat == Some(i), r.bbSeat == Some(i))
            && r.currentBet == g.cfg.bb && r.sbSeat != r.bbSeat
  {
    var live, c := WithChips(g.players), Cleared(g, deck);
    HasSeat(live, |g.players|);
    BlindsDiffer(live, PositionsOf(g), |g.players|);
    ClearedOk(g, deck);
    ClearedReset(g, deck);
    BringInOk(c);
    AfterBlinds(c, live, FirstToAct(BringIn(PostBig(PostSmall(c))), live), i);
  }

  lemma ClearedReset(g: Game, deck: seq<Card>)
    requires Startable(g)
    ensures forall i :: 0 <= i < |g.players| ==>
              Cleared(g, deck).players[i] == Reset(g.players[i]) == Reset(Cleared(g, deck).players[i])
  {
  }

  lemma AfterBlinds(c: Game, live: set<nat>, first: nat, i: nat)
    requires ClearTable(c) && |c.deck| >= 2 * |c.players| && first < |c.players| && i < |c.players| && c.sbSeat != c.bbSeat
    requires c.players[i] == Reset(c.players[i]) && c.players[c.sbSeat.value] == Reset(c.players[c.sbSeat.value])
    ensures var r := OpenRound(DealHoles(BringIn(PostBig(PostSmall(c))), live), first);
            PostedAs(c.cfg, r.players[i], c.players[i].stack, c.sbSeat == Some(i), c.bbSeat == Some(i))
  {
    hide PostSmall, PostBig, DealHoles, ClearTable, SeatOk;
    StackFits(c, i);
    SmallPosted(c, i);
    var s := PostSmall(c);
    BigPosted(s, i);
    DealHolesKeeps(BringIn(PostBig(s)), live);
  }

  lemma StackFits(c: Game, i: nat)
    requires ClearTable(c) && i < |c.players|
    ensures c.players[i].stack >= 0 && c.cfg.bb >= c.cfg.sb > 0 && c.sbSeat.Some? && c.sbSeat.value < |c.players|
    ensures c.bbSeat.Some? && c.bbSeat.value < |c.players| && c.button < |c.players|
    ensures i != c.sbSeat.value || c.players[i].stack - Min(c.cfg.sb, c.players[i].stack) >= 0
  {
  }

  /** A started hand asks all seats able to act, or nobody: exactly if there is at most one and it has matched the blind. */
  lemma StartAsks(g: Game, deck: seq<Card>)
    requires IdleOk(g) && PositionsOk(g) && |WithChips(g.players)| >= 2 && |deck| >= 2 * |g.players|
    ensures Startable(g)
    ensures var r := StartHand(g, deck);
            && (r.actor.None? <==> |Movers(r.players)| <= 1 && forall j :: j in Movers(r.players) ==> r.players[j].bet == g.cfg.bb)
            && (r.actor.Some? ==> r.need == Movers(r.players))
  {
    hide OpenRound, RoundOk, BetsOk;
    var live, c := WithChips(g.players), Cleared(g, deck);
    HasSeat(live, |g.players|);
    AdvanceFits(live, PositionsOf(g), |g.players|);
    var posted := BringIn(PostBig(PostSmall(c)));
    BlindsTaken(g, deck, 0);
    Asks(DealHoles(posted, live), FirstToAct(posted, live));
  }

  lemma Asks(g: Game, first: nat)
    requires first < |g.players|
    ensures var r := OpenRound(g, first);
            && r.players == g.players && r.currentBet == g.currentBet
            && (r.actor.None? <==> |Movers(g.players)| <= 1 && forall j :: j in Movers(g.players) ==> g.players[j].bet == g.currentBet)
            && (r.actor.Some? ==> r.need == Movers(g.players))
  {
    var n := |g.players|;
    if Movers(g.players) != {} {
      var s :| s in Movers(g.players);
      SeekNearest(Movers(g.players), first, n, n, s);
    }
  }

  /** What the start of a hand tells everybody: the stakes, then the small blind or that it is dead, the big blind and the
      ante, with what each comes to, whether it is all-in, and the pot after it. */
  lemma StartTells(g: Game, deck: seq<Card>)
    requires IdleOk(g) && PositionsOk(g) && |WithChips(g.players)| >= 2 && |deck| >= 2 * |g.players|
    ensures Startable(g)
    ensures var r := StartHand(g, deck);
            && r.sbSeat.Some? && r.sbSeat.value < |g.players| && r.bbSeat.Some? && r.bbSeat.value < |g.players|
            && r.handNo == g.handNo + 1
            && r.events == [HandStarted(g.handNo + 1, g.cfg.sb, g.cfg.bb, if g.cfg.bbAnte then g.cfg.bb else 0)]
                           + BlindEvents(g.cfg, r.sbSeat.value, g.players[r.sbSeat.value].stack,
                                         r.bbSeat.value, g.players[r.bbSeat.value].stack)
  {
    hide PostSmall, PostBig, StartHand, Cleared, PotOf, SeatOk, BlindEvents, ClearTable, IdleOk, PositionsOk;
    ReadyToStart(g);
    var c := Cleared(g, deck);
    ClearedOk(g, deck);
    ClearedReset(g, deck);
    ClearedSeats(g, deck);
    NothingIn(c.players);
    BlindsTell(c);
    StartFrom(g, deck);
  }

  lemma ReadyToStart(g: Game)
    requires IdleOk(g) && PositionsOk(g) && |WithChips(g.players)| >= 2
    ensures Startable(g)
  {
  }

  lemma ClearedSeats(g: Game, deck: seq<Card>)
    requires IdleOk(g) && PositionsOk(g) && Startable(g)
    ensures var c := Cleared(g, deck);
            && c.sbSeat.Some? && c.sbSeat.value < |g.players| && c.bbSeat.Some? && c.bbSeat.value < |g.players|
            && c.sbSeat != c.bbSeat && g.players[c.bbSeat.value].stack > 0
  {
    hide Advance;
    HasSeat(WithChips(g.players), |g.players|);
    BlindsDiffer(WithChips(g.players), PositionsOf(g), |g.players|);
    AdvanceFits(WithChips(g.players), PositionsOf(g), |g.players|);
  }

  /** The deal and the opening of the round tell nothing and leave the positions. */
  lemma StartFrom(g: Game, deck: seq<Card>)
    requires Startable(g) && |deck| >= 2 * |g.players|
    ensures var r, c := StartHand(g, deck), Cleared(g, deck);
            && c.sbSeat.Some? && c.sbSeat.value < |g.players| && c.bbSeat.Some? && c.bbSeat.value < |g.players|
            && r.sbSeat == c.sbSeat && r.bbSeat == c.bbSeat && r.handNo == c.handNo == g.handNo + 1
            && r.events == PostBig(PostSmall(c)).events
            && c.events == [HandStarted(g.handNo + 1, g.cfg.sb, g.cfg.bb, if g.cfg.bbAnte then g.cfg.bb else 0)]
  {
    hide PostSmall, PostBig, DealHoles, Advance, FirstToAct;
    HasSeat(WithChips(g.players), |g.players|);
    AdvanceFits(WithChips(g.players), PositionsOf(g), |g.players|);
  }

  /** The posts, of the small blind's and the big blind's seat with these stacks. */
  function BlindEvents(cfg: Config, small: nat, smallStack: int, big: nat, bigStack: int): (r: seq<Event>) {
    var x, y := LivePost(cfg, smallStack, true, false), LivePost(cfg, bigStack, false, true);
    var z := DeadPost(cfg, bigStack, true);
    [if smallStack > 0 then BlindPosted(small, x, x == smallStack, false, x) else BlindDead]
    + [BlindPosted(big, y, y == bigStack, false, x + y)]
    + (if cfg.bbAnte then [BlindPosted(big, z, y + z == bigStack, true, x + y + z)] else [])
  }

  lemma NothingIn(ps: seq<Player>)
    requires forall i :: 0 <= i < |ps| ==> ps[i] == Reset(ps[i])
    ensures PotOf(ps) == 0
  {
    SumZero(Lives(ps));
    SumZero(Deads(ps));
  }

  lemma BlindsTell(c: Game)
    requires ClearTable(c) && c.sbSeat != c.bbSeat && PotOf(c.players) == 0
    requires c.players[c.sbSeat.value] == Reset(c.players[c.sbSeat.value])
    requires c.players[c.bbSeat.value] == Reset(c.players[c.bbSeat.value]) && c.players[c.bbSeat.value].stack > 0
    ensures PostBig(PostSmall(c)).events
         == c.events + BlindEvents(c.cfg, c.sbSeat.value, c.players[c.sbSeat.value].stack, c.bbSeat.value, c.players[c.bbSeat.value].stack)
  {
    hide PotOf, SeatsOk, PostSmall, PostBig;
    StackFits(c, c.sbSeat.value);
    SmallTells(c);
    BigTells(PostSmall(c));
  }

  lemma SmallTells(c: Game)
    requires c.sbSeat.Some? && c.sbSeat.value < |c.players| && c.cfg.sb > 0
    requires c.players[c.sbSeat.value] == Reset(c.players[c.sbSeat.value]) && c.players[c.sbSeat.value].stack >= 0
    ensures var s, i, stack := PostSmall(c), c.sbSeat.value, c.players[c.sbSeat.value].stack;
            var x := LivePost(c.cfg, stack, true, false);
            && s.events == c.events + [if stack > 0 then BlindPosted(i, x, x == stack, false, PotOf(c.players) + x) else BlindDead]
            && PotOf(s.players) == PotOf(c.players) + x
            && forall j :: 0 <= j < |c.players| && j != i ==> s.players[j] == c.players[j]
  {
    hide PotOf, Post;
    PostTells(c, c.sbSeat.value, c.cfg.sb);
  }

  lemma PostTells(g: Game, i: nat, amount: int)
    requires i < |g.players| && amount >= 0 && g.players[i].stack >= 0
    ensures var r, p, x := Post(g, i, amount), g.players[i], Min(amount, g.players[i].stack);
            && r.events == g.events + [BlindPosted(i, x, p.allIn || x == p.stack, false, PotOf(g.players) + x)]
            && PotOf(r.players) == PotOf(g.players) + x && r.cfg == g.cfg && r.bbSeat == g.bbSeat
            && r.players == g.players[i := p.(stack := p.stack - x, bet := p.bet + x, totalLive := p.totalLive + x,
                                              allIn := p.allIn || x == p.stack)]
  {
    hide PotOf;
    PotChanges(g.players, i, Commit(g.players[i], Min(amount, g.players[i].stack)));
  }

  lemma BigTells(s: Game)
    requires s.bbSeat.Some? && s.bbSeat.value < |s.players| && s.cfg.bb > 0
    requires s.players[s.bbSeat.value] == Reset(s.players[s.bbSeat.value]) && s.players[s.bbSeat.value].stack > 0
    ensures var b, i, stack := PostBig(s), s.bbSeat.value, s.players[s.bbSeat.value].stack;
            var y, z, pot := LivePost(s.cfg, stack, false, true), DeadPost(s.cfg, stack, true), PotOf(s.players);
            b.events == s.events + [BlindPosted(i, y, y == stack, false, pot + y)]
                        + (if s.cfg.bbAnte then [BlindPosted(i, z, y + z == stack, true, pot + y + z)] else [])
  {
    hide PotOf, Post;
    var i := s.bbSeat.value;
    var b := Post(s, i, s.cfg.bb);
    PostTells(s, i, s.cfg.bb);
    PotChanges(b.players, i, PostDead(b, i, s.cfg.bb).players[i]);
  }

  lemma PotChanges(ps: seq<Player>, i: nat, p: Player)
    requires i < |ps|
    ensures PotOf(ps[i := p]) == PotOf(ps) + p.totalLive - ps[i].totalLive + p.totalDead - ps[i].totalDead
  {
    SeatUpdate(ps, i, p);
  }

  // --------------------------------------------------------------- cards

  /** The deal after its first card. */
  function Dealt(d: Deal, i: nat): (r: Deal)
    requires i < |d.players| && |d.deck| > 0
    ensures |r.players| == |d.players|
  {
    var top := |d.deck| - 1;
    Deal(d.players[i := d.players[i].(hole := d.players[i].hole + [d.deck[top]])], d.deck[..top])
  }

  lemma {:induction false} DealOneLeaves(d: Deal, order: seq<nat>, i: nat)
    requires Seats(order, |d.players|) && |order| <= |d.deck| && i < |d.players| && i !in order
    ensures DealOne(d, order).players[i] == d.players[i]
    decreases |order|
  {
    if |order| > 0 {
      assert order[0] in order;
      DealOneLeaves(Dealt(d, order[0]), order[1..], i);
    }
  }

  lemma {:induction false} DealOneDeck(d: Deal, order: seq<nat>)
    requires Seats(order, |d.players|) && |order| <= |d.deck|
    ensures DealOne(d, order).deck == d.deck[..|d.deck| - |order|]
    decreases |order|
  {
    if |order| > 0 { DealOneDeck(Dealt(d, order[0]), order[1..]); }
  }

  /** One round of dealing: the `k`-th seat in order takes the `k`-th card from the end. */
  lemma {:induction false} DealOneCards(d: Deal, order: seq<nat>, k: nat)
    requires Seats(order, |d.players|) && Different(order) && k < |order| <= |d.deck|
    ensures DealOne(d, order).players[order[k]].hole == d.players[order[k]].hole + [d.deck[|d.deck| - 1 - k]]
    decreases |order|
  {
    var d1 := Dealt(d, order[0]);
    if k == 0 {
      assert order[0] !in order[1..];
      DealOneLeaves(d1, order[1..], order[0]);
    } else {
      DealOneCards(d1, order[1..], k - 1);
    }
  }

  /** Two cards each, one at a time round the table from the left of the button. */
  lemma HolesDealt(g: Game, live: set<nat>, k: nat)
    requires g.button < |g.players| && |g.deck| >= 2 * |g.players|
    requires forall i :: 0 <= i < |g.players| ==> g.players[i].hole == []
    ensures var order := Collect(live, NextSeat(g.button, |g.players|), |g.players|, |g.players|);
            var n, m := |g.deck|, |order|;
            && m <= |g.players|
            && (k < m ==>
                  order[k] < |g.players|
                  && DealHoles(g, live).players[order[k]].hole == [g.deck[n - 1 - k], g.deck[n - 1 - m - k]])
  {
    hide Collect, DealOne;
    var s := |g.players|;
    var order := Collect(live, NextSeat(g.button, s), s, s);
    CollectBound(live, NextSeat(g.button, s), s, s);
    CollectExact(live, NextSeat(g.button, s), s, s);
    if k < |order| {
      var d0 := Deal(g.players, g.deck);
      var d1 := DealOne(d0, order);
      DealOneCards(d0, order, k);
      DealOneDeck(d0, order);
      DealOneCards(d1, order, k);
    }
  }

  // ------------------------------------------------------- first to act

  /** The seat to act first is the nearest able one from the button heads-up, else from the left of the big blind. */
  lemma FirstActs(g: Game, deck: seq<Card>, w: nat)
    requires IdleOk(g) && PositionsOk(g) && |WithChips(g.players)| >= 2 && |deck| >= 2 * |g.players|
    ensures Startable(g) && SeatIn(WithChips(g.players), |g.players|)
    ensures var r, live, n := StartHand(g, deck), WithChips(g.players), |g.players|;
            && r.bbSeat.Some? && r.bbSeat.value < n && r.button < n && |r.players| == n
            && var first := if |live| == 2 then r.button else NextIn(live, r.bbSeat.value, n);
               r.actor.Some? && w < n && CanAct(r.players[w]) ==>
                 r.actor.value < n && CanAct(r.players[r.actor.value]) && Dist(first, r.actor.value, n) <= Dist(first, w, n)
  {
    hide OpenRound;
    var live, n, c := WithChips(g.players), |g.players|, Cleared(g, deck);
    HasSeat(live, n);
    AdvanceFits(live, PositionsOf(g), n);
    var posted := BringIn(PostBig(PostSmall(c)));
    OpensNearest(DealHoles(posted, live), FirstToAct(posted, live), w);
  }

  lemma OpensNearest(g: Game, first: nat, w: nat)
    requires first < |g.players|
    ensures var r, n := OpenRound(g, first), |g.players|;
            && r == g.(noRaise := r.noRaise, actedAt := r.actedAt, need := r.need, actor := r.actor)
            && (r.actor.Some? && w < n && CanAct(g.players[w]) ==>
                  r.actor.value < n && CanAct(g.players[r.actor.value]) && Dist(first, r.actor.value, n) <= Dist(first, w, n))
  {
    var r, n := OpenRound(g, first), |g.players|;
    if r.actor.Some? && w < n && CanAct(g.players[w]) {
      SeekNearest(r.need, first, n, n, w);
      SeekSound(r.need, first, n, n);
    }
  }
}
