/** Cards over a hand: dealt, run out, never duplicated or lost (holdem/engine.py). */
module Dealing {
  import opened Evaluator
  import opened Pots
  import opened Settlement
  import opened Game
  import opened Betting

  function HoleCards(ps: seq<Player>): (m: multiset<Card>) {
    if |ps| == 0 then multiset{} else HoleCards(ps[..|ps| - 1]) + multiset(ps[|ps| - 1].hole)
  }

  /** Every card of the hand: in the deck, on the board, in somebody's hand. */
  function CardsOf(g: Game): (m: multiset<Card>) {
    multiset(g.deck) + multiset(g.board) + HoleCards(g.players)
  }

  function BoardSize(street: Street): (k: nat) {
    match street
    case Idle => 0
    case Preflop => 0
    case Flop => 3
    case Turn => 4
    case River => 5
    case Showdown => 5
  }

  predicate InPlay(street: Street) {
    street != Idle
  }

  /** Cards are different and real, the board fits the street, and the deck can complete it twice. */
  ghost predicate CardsOk(g: Game) {
    && (forall c :: CardsOf(g)[c] <= 1)
    && (forall c :: c in CardsOf(g) ==> ValidCard(c))
    && InPlay(g.street) && |g.board| == BoardSize(g.street)
    && |g.deck| >= 2 * (5 - |g.board|)
    && forall i :: 0 <= i < |g.players| && g.players[i].inSeat ==> |g.players[i].hole| == 2
  }

  /** A deck as `Deck` makes it: every card once. */
  ghost predicate FullDeck(deck: seq<Card>) {
    && |deck| == 52 && (forall c :: c in deck ==> ValidCard(c))
    && forall c :: multiset(deck)[c] <= 1
  }

  // ------------------------------------------------------- each step

  lemma {:induction false} HoleUpdate(ps: seq<Player>, i: nat, p: Player)
    requires i < |ps|
    ensures HoleCards(ps[i := p]) + multiset(ps[i].hole) == HoleCards(ps) + multiset(p.hole)
  {
    var n := |ps| - 1;
    if i == n {
      assert ps[i := p][..n] == ps[..n];
    } else {
      assert ps[i := p][..n] == ps[..n][i := p];
      HoleUpdate(ps[..n], i, p);
      var a, b, l := HoleCards(ps[..n]), HoleCards(ps[..n][i := p]), multiset(ps[n].hole);
      Regroup(b, l, multiset(ps[i].hole));
      Regroup(a, l, multiset(p.hole));
    }
  }

  lemma Regroup(a: multiset<Card>, b: multiset<Card>, c: multiset<Card>)
    ensures (a + b) + c == (a + c) + b
  {
  }

  lemma {:induction false} SameHoles(ps: seq<Player>, qs: seq<Player>)
    requires |ps| == |qs| && forall i :: 0 <= i < |ps| ==> ps[i].hole == qs[i].hole
    ensures HoleCards(ps) == HoleCards(qs)
  {
    if |ps| > 0 { SameHoles(ps[..|ps| - 1], qs[..|qs| - 1]); }
  }

  lemma TopCardsMove(deck: seq<Card>, board: seq<Card>, k: nat)
    requires k <= |deck|
    ensures multiset(deck[..|deck| - k]) + multiset(board + TopCards(deck, k)) == multiset(deck) + multiset(board)
  {
    assert deck == deck[..|deck| - k] + TopCards(deck, k);
  }

  /** No move touches a card. */
  lemma ActKeepsCards(g: Game, i: int, action: Action)
    requires RoundOk(g) && Act(g, i, action).Ok?
    ensures CardsOf(Act(g, i, action).value) == CardsOf(g)
    ensures CardsOk(g) ==> CardsOk(Act(g, i, action).value)
  {
    hide RoundOk, Act, HoleCards, ValidCard;
    ActMoves(g, i, action);
    SameHoles(g.players, Act(g, i, action).value.players);
  }

  /** The same cards in the same places. */
  predicate SameCards(g: Game, r: Game) {
    && r.deck == g.deck && r.board == g.board && |r.players| == |g.players|
    && forall i :: 0 <= i < |g.players| ==> r.players[i].hole == g.players[i].hole
  }

  lemma SameCardsOf(g: Game, r: Game)
    requires SameCards(g, r)
    ensures CardsOf(r) == CardsOf(g)
  {
    SameHoles(g.players, r.players);
  }

  lemma DealStreetCards(g: Game)
    requires DealCount(g.street) <= |g.deck|
    ensures CardsOf(DealStreet(g)) == CardsOf(g)
  {
    hide HoleCards, TopCards, DealCount;
    var r, k := DealStreet(g), DealCount(g.street);
    SameHoles(g.players, r.players);
    TopCardsMove(g.deck, g.board, k);
  }

  /** The cards' bookkeeping other than what the cards are. */
  predicate CardCounts(g: Game) {
    && InPlay(g.street) && |g.board| == BoardSize(g.street)
    && |g.deck| >= 2 * (5 - |g.board|)
    && forall i :: 0 <= i < |g.players| && g.players[i].inSeat ==> |g.players[i].hole| == 2
  }

  lemma CardsOkAgain(g: Game, r: Game)
    requires CardsOk(g) && CardsOf(r) == CardsOf(g) && CardCounts(r)
    ensures CardsOk(r)
  {
  }

  lemma NextStreetCounts(g: Game)
    requires CardCounts(g) && g.street != Showdown && g.button < |g.players|
    ensures CardCounts(NextStreet(g)) && g.board <= NextStreet(g).board
  {
  }

  /** Dealing a street moves cards from the deck to the board. */
  lemma NextStreetKeepsCards(g: Game)
    requires CardsOk(g) && g.street != Showdown && g.button < |g.players|
    ensures CardsOf(NextStreet(g)) == CardsOf(g)
    ensures CardsOk(NextStreet(g))
    ensures g.board <= NextStreet(g).board
  {
    DealStreetCards(g);
    SameCardsOf(DealStreet(g), NextStreet(g));
    NextStreetCounts(g);
    CardsOkAgain(g, NextStreet(g));
  }

  lemma {:induction false} DealOneCards(d: Deal, order: seq<nat>)
    requires Seats(order, |d.players|) && |order| <= |d.deck|
    ensures multiset(DealOne(d, order).deck) + HoleCards(DealOne(d, order).players) == multiset(d.deck) + HoleCards(d.players)
    decreases |order|
  {
    if |order| > 0 {
      var i, k := order[0], |d.deck| - 1;
      var p, c := d.players[i], d.deck[k];
      var q := p.(hole := p.hole + [c]);
      HoleUpdate(d.players, i, q);
      assert d.deck == d.deck[..k] + [c];
      OneCard(multiset(d.deck[..k]), HoleCards(d.players), HoleCards(d.players[i := q]), multiset(p.hole), c);
      DealOneCards(Deal(d.players[i := q], d.deck[..k]), order[1..]);
    }
  }

  lemma OneCard(deck: multiset<Card>, a: multiset<Card>, b: multiset<Card>, h: multiset<Card>, c: Card)
    requires b + h == a + (h + multiset{c})
    ensures deck + b == (deck + multiset{c}) + a
  {
    forall x ensures (deck + b)[x] == ((deck + multiset{c}) + a)[x] {
      assert (b + h)[x] == (a + (h + multiset{c}))[x];
    }
  }

  /** Each seat in `order` gets one card. */
  lemma {:induction false} DealOneCounts(d: Deal, order: seq<nat>)
    requires Seats(order, |d.players|) && |order| <= |d.deck| && Different(order)
    ensures forall i :: 0 <= i < |d.players| ==>
              |DealOne(d, order).players[i].hole| == |d.players[i].hole| + (if i in order then 1 else 0)
    decreases |order|
  {
    if |order| > 0 {
      var i, k := order[0], |d.deck| - 1;
      var q := d.players[i].(hole := d.players[i].hole + [d.deck[k]]);
      DealOneCounts(Deal(d.players[i := q], d.deck[..k]), order[1..]);
      assert forall j :: j in order <==> j == i || j in order[1..];
      assert i !in order[1..];
    }
  }

  /** Walking round the table meets each seat once. */
  lemma {:induction false} CollectExact(S: set<nat>, j: nat, n: nat, steps: nat)
    requires j < n && steps <= n
    ensures Different(Collect(S, j, n, steps))
    ensures forall i: nat :: i in Collect(S, j, n, steps) <==> i < n && i in S && Dist(j, i, n) < steps
    decreases steps
  {
    if steps > 0 {
      var k := NextSeat(j, n);
      CollectExact(S, k, n, steps - 1);
      var rest := Collect(S, k, n, steps - 1);
      forall i: nat | i < n ensures Dist(j, i, n) == (if i == j then 0 else Dist(k, i, n) + 1) {
      }
      assert Dist(k, j, n) == n - 1;
      assert j !in rest;
      assert Collect(S, j, n, steps) == (if j in S then [j] else []) + rest;
    }
  }

  lemma DealHolesCards(g: Game, live: set<nat>)
    requires g.button < |g.players| && |g.deck| >= 2 * |g.players|
    requires forall i :: i in live ==> i < |g.players|
    requires forall i :: 0 <= i < |g.players| ==> g.players[i].hole == []
    ensures var r := DealHoles(g, live);
            && multiset(r.deck) + HoleCards(r.players) == multiset(g.deck)
            && |r.deck| >= |g.deck| - 2 * |g.players|
            && forall i: nat :: i < |g.players| ==> |r.players[i].hole| == (if i in live then 2 else 0)
  {
    var n := |g.players|;
    var order := Collect(live, NextSeat(g.button, n), n, n);
    CollectBound(live, NextSeat(g.button, n), n, n);
    CollectExact(live, NextSeat(g.button, n), n, n);
    var d0 := Deal(g.players, g.deck);
    DealOneCards(d0, order);
    DealOneCards(DealOne(d0, order), order);
    DealOneCounts(d0, order);
    DealOneCounts(DealOne(d0, order), order);
    NoHoles(g.players);
  }

  lemma {:induction false} NoHoles(ps: seq<Player>)
    requires forall i :: 0 <= i < |ps| ==> ps[i].hole == []
    ensures HoleCards(ps) == multiset{}
  {
    if |ps| > 0 { NoHoles(ps[..|ps| - 1]); }
  }

  lemma CardsOkFrom(g: Game, deck: seq<Card>)
    requires FullDeck(deck) && CardsOf(g) == multiset(deck)
    requires InPlay(g.street) && |g.board| == BoardSize(g.street) && |g.deck| >= 2 * (5 - |g.board|)
    requires forall i :: 0 <= i < |g.players| && g.players[i].inSeat ==> |g.players[i].hole| == 2
    ensures CardsOk(g)
  {
    forall c | c in CardsOf(g) ensures ValidCard(c) {
      assert c in deck;
    }
  }

  lemma HandDealt(g: Game, live: set<nat>, deck: seq<Card>, r: Game)
    requires g.button < |g.players| <= 9 && g.deck == deck && FullDeck(deck) && g.board == [] && g.street == Preflop
    requires forall i :: i in live ==> i < |g.players|
    requires forall i: nat :: i < |g.players| ==> g.players[i].hole == [] && g.players[i].inSeat == (i in live)
    requires r == DealHoles(g, live)
    ensures CardsOf(r) == multiset(deck) && CardsOk(r)
  {
    DealHolesCards(g, live);
    DealHolesKeeps(g, live);
    assert multiset(r.board) == multiset{};
    assert CardsOf(r) == multiset(deck);
    CardsOkFrom(r, deck);
  }

  lemma PostedFacts(g: Game, live: set<nat>, r: Game)
    requires ClearTable(g) && r == BringIn(PostBig(PostSmall(g)))
    requires forall i: nat :: i < |g.players| ==> g.players[i].hole == [] && g.players[i].inSeat == (i in live)
    ensures r.deck == g.deck && r.board == g.board && r.street == g.street && r.button == g.button
    ensures r.bbSeat == g.bbSeat && |r.players| == |g.players|
    ensures forall i: nat :: i < |g.players| ==> r.players[i].hole == [] && r.players[i].inSeat == (i in live)
  {
    hide PostSmall, PostBig, SeatOk, ChipsOf, BetsOk, ClearTable;
    BringInOk(g);
  }

  /** A hand starts with the whole deck, dealt two cards a seat. */
  lemma StartKeepsCards(g: Game, deck: seq<Card>)
    requires IdleOk(g) && Startable(g) && FullDeck(deck) && |g.players| <= 9
    ensures CardsOf(StartHand(g, deck)) == multiset(deck)
    ensures CardsOk(StartHand(g, deck))
  {
    var live, g1 := WithChips(g.players), Cleared(g, deck);
    ClearedOk(g, deck);
    ClearedKeeps(g, deck);
    var posted := BringIn(PostBig(PostSmall(g1)));
    PostedFacts(g1, live, posted);
    var dealt := DealHoles(posted, live);
    HandDealt(posted, live, deck, dealt);
    HasSeat(live, |g.players|);
    SameCardsOf(dealt, StartHand(g, deck));
  }
}
