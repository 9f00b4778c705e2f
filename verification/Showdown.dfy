/** Who shows and who mucks at showdown (step 6 of `settle` in holdem/engine.py). */
module Showdown {
  import opened Evaluator
  import opened Pots
  import opened Settlement
  import opened Awards
  import opened Game
  import opened Dealing

  /** `a` loses to `b`. */
  predicate Beaten(a: Score, b: Score) {
    ScoreLe(a, b) && a != b
  }

  /** Seat `j` was beaten by a hand that was on the table when its turn came. */
  ghost predicate BeatenBefore(order: seq<nat>, sc: Scores, shown: set<nat>, j: nat) {
    exists a, b :: 0 <= a < b < |order| && order[b] == j && order[a] in shown && order[a] in sc && j in sc
                   && Beaten(sc[j], sc[order[a]])
  }

  lemma BeatenNow(order: seq<nat>, sc: Scores, shown: set<nat>, a: nat, b: nat)
    requires a < b < |order| && order[a] in shown && order[a] in sc && order[b] in sc && Beaten(sc[order[b]], sc[order[a]])
    ensures BeatenBefore(order, sc, shown, order[b])
  {
  }

  lemma BeatenStill(order: seq<nat>, sc: Scores, shown: set<nat>, more: set<nat>, mucked: set<nat>)
    requires shown <= more && forall j :: j in mucked ==> BeatenBefore(order, sc, shown, j)
    ensures forall j :: j in mucked ==> BeatenBefore(order, sc, more, j)
  {
    forall j | j in mucked ensures BeatenBefore(order, sc, more, j) {
      assert BeatenBefore(order, sc, shown, j);
    }
  }

  /** No hand on the table when the seat at `b` had its turn beats that seat's. */
  ghost predicate Unbeaten(order: seq<nat>, sc: Scores, shown: set<nat>, b: nat)
    requires b < |order| && Scored(order, sc)
  {
    forall a :: 0 <= a < b && order[a] in shown ==> !Beaten(sc[order[b]], sc[order[a]])
  }

  /** A seat that shows must: the hands are tabled, or it wins a pot, or nothing shown before beats it. */
  ghost predicate MustShow(order: seq<nat>, sc: Scores, shown: set<nat>, winners: set<nat>, tabled: bool, k: nat)
    requires k <= |order| && Scored(order, sc)
  {
    forall b :: 0 <= b < k && order[b] in shown ==> tabled || order[b] in winners || Unbeaten(order, sc, shown, b)
  }

  /** The best hand shown so far. */
  ghost predicate BestShown(order: seq<nat>, sc: Scores, shown: set<nat>, best: Option<nat>, k: nat)
    requires k <= |order| && Scored(order, sc)
  {
    && (best.Some? ==> best.value < k && order[best.value] in shown)
    && forall a :: 0 <= a < k && order[a] in shown ==> best.Some? && ScoreLe(sc[order[a]], sc[order[best.value]])
  }

  lemma ShowsNext(order: seq<nat>, sc: Scores, shown: set<nat>, winners: set<nat>, tabled: bool, best: Option<nat>, k: nat)
    requires Scored(order, sc) && Different(order) && k < |order| && shown <= SeatSet(order[..k])
    requires MustShow(order, sc, shown, winners, tabled, k) && BestShown(order, sc, shown, best, k)
    requires tabled || order[k] in winners || best.None? || ScoreLe(sc[order[best.value]], sc[order[k]])
    ensures MustShow(order, sc, shown + {order[k]}, winners, tabled, k + 1)
  {
    var more := shown + {order[k]};
    forall b | 0 <= b < k + 1 && order[b] in more ensures tabled || order[b] in winners || Unbeaten(order, sc, more, b) {
      if b < k {
        assert order[b] in shown;
        assert Unbeaten(order, sc, shown, b) ==> Unbeaten(order, sc, more, b);
      } else if best.Some? && ScoreLe(sc[order[best.value]], sc[order[k]]) {
        forall a | 0 <= a < k && order[a] in more ensures !Beaten(sc[order[k]], sc[order[a]]) {
          assert order[a] in shown;
          ScoreOrder(sc[order[a]], sc[order[k]]);
          NotBeaten(sc[order[a]], sc[order[best.value]], sc[order[k]]);
        }
      }
    }
  }

  lemma NotBeaten(a: Score, b: Score, c: Score)
    requires ScoreLe(a, b) && ScoreLe(b, c)
    ensures ScoreLe(a, c) && !Beaten(c, a)
  {
    if a.cat == c.cat { LexTransitive(a.tb, b.tb, c.tb); }
    ScoreOrder(a, c);
  }

  lemma BestNext(order: seq<nat>, sc: Scores, shown: set<nat>, best: Option<nat>, k: nat)
    requires Scored(order, sc) && Different(order) && k < |order| && BestShown(order, sc, shown, best, k)
    ensures BestShown(order, sc, shown + {order[k]},
                      if best.None? || Beaten(sc[order[best.value]], sc[order[k]]) then Some(k) else best, k + 1)
  {
    if best.Some? {
      ScoreOrder(sc[order[best.value]], sc[order[k]]);
      forall a | 0 <= a < k && order[a] in shown
        ensures Beaten(sc[order[best.value]], sc[order[k]]) ==> ScoreLe(sc[order[a]], sc[order[k]])
      {
        if Beaten(sc[order[best.value]], sc[order[k]]) { NotBeaten(sc[order[a]], sc[order[best.value]], sc[order[k]]); }
      }
    }
    ScoreOrder(sc[order[k]], sc[order[k]]);
  }

  lemma NextShown(order: seq<nat>, k: nat)
    requires Different(order) && k < |order|
    ensures SeatSet(order[..k + 1]) == SeatSet(order[..k]) + {order[k]} && order[k] !in SeatSet(order[..k])
  {
    assert order[..k + 1] == order[..k] + [order[k]];
  }

  /** The loop that has each seat show or muck: every seat does one or the other, all winners show, and a seat mucks only a
      losing hand, beaten by one already shown, and never when the hands are tabled; every other hand it shows. */
  method ShowHands(order: seq<nat>, sc: Scores, winners: set<nat>, tabled: bool) returns (shown: set<nat>, mucked: set<nat>)
    requires Scored(order, sc) && Different(order)
    ensures shown + mucked == SeatSet(order) && shown !! mucked && mucked !! winners
    ensures tabled ==> mucked == {}
    ensures forall j :: j in mucked ==> BeatenBefore(order, sc, shown, j)
    ensures MustShow(order, sc, shown, winners, tabled, |order|)
  {
    hide BeatenBefore, SeatSet, MustShow, BestShown;
    shown, mucked := {}, {};
    var best: Option<nat> := None;
    NobodyYet(order, sc, winners, tabled);
    for k := 0 to |order|
      invariant shown + mucked == SeatSet(order[..k]) && shown !! mucked && mucked !! winners
      invariant tabled ==> mucked == {}
      invariant forall j :: j in mucked ==> BeatenBefore(order, sc, shown, j)
      invariant best.Some? ==> best.value < k && order[best.value] in shown
      invariant MustShow(order, sc, shown, winners, tabled, k) && BestShown(order, sc, shown, best, k)
    {
      var j := order[k];
      NextShown(order, k);
      if tabled || j in winners || best.None? || ScoreLe(sc[order[best.value]], sc[j]) {
        BeatenStill(order, sc, shown, shown + {j}, mucked);
        ShowsNext(order, sc, shown, winners, tabled, best, k);
        BestNext(order, sc, shown, best, k);
        shown := shown + {j};
        if best.None? || Beaten(sc[order[best.value]], sc[j]) {
          best := Some(k);
        }
      } else {
        ScoreOrder(sc[order[best.value]], sc[j]);
        BeatenNow(order, sc, shown, best.value, k);
        MucksNext(order, sc, shown, winners, tabled, best, k);
        mucked := mucked + {j};
      }
    }
    assert order[..|order|] == order;
  }

  lemma MucksNext(order: seq<nat>, sc: Scores, shown: set<nat>, winners: set<nat>, tabled: bool, best: Option<nat>, k: nat)
    requires Scored(order, sc) && Different(order) && k < |order| && shown <= SeatSet(order[..k])
    requires MustShow(order, sc, shown, winners, tabled, k) && BestShown(order, sc, shown, best, k)
    ensures MustShow(order, sc, shown, winners, tabled, k + 1) && BestShown(order, sc, shown, best, k + 1)
  {
    NextShown(order, k);
  }

  lemma NobodyYet(order: seq<nat>, sc: Scores, winners: set<nat>, tabled: bool)
    requires Scored(order, sc)
    ensures SeatSet(order[..0]) == {} && MustShow(order, sc, {}, winners, tabled, 0) && BestShown(order, sc, {}, None, 0)
  {
  }

  // ------------------------------------------------------ the order they show in

  /** The seats come in the order a walk from seat `start` meets them. */
  ghost predicate AsMet(order: seq<nat>, start: nat, n: nat)
    requires Seats(order, n) && start < n
  {
    forall a, b :: 0 <= a < b < |order| ==> Dist(start, order[a], n) < Dist(start, order[b], n)
  }

  lemma Nobody(j: nat, n: nat)
    requires j < n
    ensures AsMet([], j, n)
  {
  }

  lemma {:induction false} CollectAsMet(S: set<nat>, j: nat, n: nat, steps: nat)
    requires j < n && steps <= n
    ensures AsMet(Collect(S, j, n, steps), j, n)
    decreases steps
  {
    hide AsMet, Dist;
    if steps == 0 {
      Nobody(j, n);
    } else {
      var k := NextSeat(j, n);
      CollectAsMet(S, k, n, steps - 1);
      CollectExact(S, k, n, steps - 1);
      StepBack(Collect(S, k, n, steps - 1), j, n, steps - 1);
    }
  }

  lemma OneBack(j: nat, w: nat, n: nat)
    requires j < n && w < n
    ensures Dist(j, j, n) == 0
    ensures Dist(NextSeat(j, n), w, n) < n - 1 ==> Dist(j, w, n) == Dist(NextSeat(j, n), w, n) + 1
  {
  }

  /** Seats met walking on from the next one are each a step further from `j`, and further than `j` itself. */
  lemma StepBack(rest: seq<nat>, j: nat, n: nat, steps: nat)
    requires j < n && steps < n && Seats(rest, n) && AsMet(rest, NextSeat(j, n), n)
    requires forall i: nat :: i in rest ==> Dist(NextSeat(j, n), i, n) < steps
    ensures AsMet(rest, j, n) && AsMet([j] + rest, j, n) && [] + rest == rest
  {
    hide Dist, NextSeat;
    forall a | 0 <= a < |rest| ensures Dist(j, rest[a], n) == Dist(NextSeat(j, n), rest[a], n) + 1 {
      assert rest[a] in rest;
      OneBack(j, rest[a], n);
    }
    OneBack(j, j, n);
    forall a, b | 0 <= a < b < |rest| ensures Dist(j, rest[a], n) < Dist(j, rest[b], n) {
      assert Dist(NextSeat(j, n), rest[a], n) < Dist(NextSeat(j, n), rest[b], n);
    }
  }

  /** Walking from the first of the seats met from `from` meets them all in the same order. */
  lemma SameWalk(order: seq<nat>, from: nat, first: nat, n: nat)
    requires Seats(order, n) && from < n && first < n && AsMet(order, first, n)
    requires forall w :: w in order ==> Dist(from, first, n) <= Dist(from, w, n)
    ensures AsMet(order, from, n)
  {
    forall a, b | 0 <= a < b < |order| ensures Dist(from, order[a], n) < Dist(from, order[b], n) {
      assert order[a] in order && order[b] in order;
      Further(from, first, order[a], n);
      Further(from, first, order[b], n);
    }
  }

  lemma Further(from: nat, first: nat, w: nat, n: nat)
    requires from < n && first < n && w < n && Dist(from, first, n) <= Dist(from, w, n)
    ensures Dist(from, w, n) == Dist(from, first, n) + Dist(first, w, n)
  {
  }

  /** The showdown order names every seat left in the hand once, as a walk meets them: from the last to bet or raise on the
      river if hands need not be tabled, else from the seat after the button. */
  method ShowOrder(g: Game, tabled: bool) returns (order: seq<nat>)
    requires g.button < |g.players| && ContestedSeats(g.players) != {}
    requires g.riverAggr.Some? ==> g.riverAggr.value < |g.players|
    ensures Different(order) && SeatSet(order) == ContestedSeats(g.players) && Seats(order, |g.players|)
    ensures AsMet(order, if g.riverAggr.Some? && !tabled then g.riverAggr.value else NextSeat(g.button, |g.players|), |g.players|)
  {
    hide Collect, Seek, AsMet, Dist, ContestedSeats, SeatSet;
    var n := |g.players|;
    ghost var S := ContestedSeats(g.players);
    var start: nat;
    if g.riverAggr.Some? && !tabled {
      start := g.riverAggr.value;
    } else {
      start := FirstLeft(g.players, NextSeat(g.button, n));
    }
    order := [];
    var j: nat, k := start, 0;
    while k < n
      invariant 0 <= k <= n && j < n
      invariant Collect(S, start, n, n) == order + Collect(S, j, n, n - k)
    {
      IsLeft(g.players, j);
      CollectTurn(S, j, n, n - k, order);
      if IsContested(g.players[j]) {
        order := order + [j];
      }
      j, k := NextSeat(j, n), k + 1;
    }
    CollectNone(S, j, n);
    assert order == Collect(S, start, n, n);
    ShowOrderComplete(g.players, start);
    CollectAsMet(S, start, n, n);
    if !(g.riverAggr.Some? && !tabled) {
      FoundIn(g.players, order);
      SameWalk(order, NextSeat(g.button, n), start, n);
    }
  }

  lemma IsLeft(players: seq<Player>, j: nat)
    requires j < |players|
    ensures j in ContestedSeats(players) <==> IsContested(players[j])
  {
  }

  lemma FoundIn(players: seq<Player>, order: seq<nat>)
    requires SeatSet(order) == ContestedSeats(players)
    ensures forall w :: w in order <==> w in ContestedSeats(players)
  {
    assert forall w :: w in order <==> w in SeatSet(order);
  }

  /** The first seat left in the hand from `from` on. */
  method FirstLeft(players: seq<Player>, from: nat) returns (first: nat)
    requires from < |players| && ContestedSeats(players) != {}
    ensures first in ContestedSeats(players) && first < |players|
    ensures forall w :: w in ContestedSeats(players) ==> w < |players| && Dist(from, first, |players|) <= Dist(from, w, |players|)
  {
    var n := |players|;
    first := from;
    ghost var k := 0;
    while !IsContested(players[first])
      invariant first < n && 0 <= k < n && Dist(from, first, n) == k
      invariant forall w :: w in ContestedSeats(players) ==> Dist(from, w, n) >= k
      decreases n - k
    {
      ghost var w :| w in ContestedSeats(players);
      assert w != first;
      first, k := NextSeat(first, n), k + 1;
    }
  }

  lemma ShowOrderComplete(players: seq<Player>, start: nat)
    requires start < |players|
    ensures var order := Collect(ContestedSeats(players), start, |players|, |players|);
            Different(order) && SeatSet(order) == ContestedSeats(players)
  {
    CollectExact(ContestedSeats(players), start, |players|, |players|);
  }
}
