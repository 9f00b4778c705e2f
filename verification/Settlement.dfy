/** Refund, award and forfeit of chips (`settle` and `settle_forfeit` in holdem/engine.py). */
module Settlement {
  import opened Sums
  import opened Pots

  datatype Option<T> = None | Some(value: T) {
    function GetOr(default: T): T {
      if Some? then value else default
    }
  }

  // ------------------------------------------------ the uncalled bet

  datatype Refund = Refund(seat: nat, chips: int)

  function InsertDown(s: seq<int>, x: int): (r: seq<int>) {
    if |s| == 0 || x >= s[0] then [x] + s else [s[0]] + InsertDown(s[1..], x)
  }

  /** `sorted((v for v in live if v > 0), reverse=True)`. */
  function StakesDown(live: seq<int>): (r: seq<int>) {
    if |live| == 0 then []
    else
      var rest := StakesDown(live[..|live| - 1]);
      if live[|live| - 1] > 0 then InsertDown(rest, live[|live| - 1]) else rest
  }

  /** `[i for i, v in enumerate(live) if v == x]`. */
  function Holders(live: seq<int>, x: int): (r: seq<nat>)
    ensures forall k :: 0 <= k < |r| ==> r[k] < |live|
  {
    if |live| == 0 then []
    else Holders(live[..|live| - 1], x) + (if live[|live| - 1] == x then [|live| - 1] else [])
  }

  /** The uncalled part of a unique largest live bet. */
  function Uncalled(live: seq<int>): (r: Option<Refund>)
    ensures r.Some? ==> r.value.seat < |live|
  {
    var lives := StakesDown(live);
    if |lives| >= 2 && lives[0] > lives[1] then
      var top := Holders(live, lives[0]);
      if |top| == 1 then Some(Refund(top[0], lives[0] - lives[1])) else None
    else None
  }

  /** `seat` bet `chips` more than the next largest bet, which is a real one. */
  ghost predicate IsUncalled(live: seq<int>, seat: nat, chips: int) {
    && seat < |live| && chips > 0
    && (exists j :: 0 <= j < |live| && j != seat && live[j] == live[seat] - chips && live[j] > 0)
    && (forall j :: 0 <= j < |live| && j != seat ==> live[j] <= live[seat] - chips)
  }

  ghost predicate Falling(s: seq<int>) {
    forall i, j :: 0 <= i < j < |s| ==> s[i] >= s[j]
  }

  lemma {:induction false} InsertDownKeeps(s: seq<int>, x: int)
    ensures multiset(InsertDown(s, x)) == multiset(s) + multiset{x}
  {
    if |s| > 0 && x < s[0] {
      InsertDownKeeps(s[1..], x);
      assert s == [s[0]] + s[1..];
    }
  }

  lemma {:induction false} InsertDownFacts(s: seq<int>, x: int)
    requires Falling(s)
    ensures Falling(InsertDown(s, x))
    ensures |s| > 0 ==> InsertDown(s, x)[0] == (if x >= s[0] then x else s[0])
  {
    if |s| > 0 && x < s[0] {
      InsertDownFacts(s[1..], x);
      var r := InsertDown(s[1..], x);
      assert r[0] <= s[0];
      assert forall k :: 0 <= k < |r| ==> r[k] <= r[0];
    }
  }

  function Positives(live: seq<int>): (r: multiset<int>) {
    if |live| == 0 then multiset{}
    else Positives(live[..|live| - 1]) + (if live[|live| - 1] > 0 then multiset{live[|live| - 1]} else multiset{})
  }

  lemma {:induction false} StakesDownFacts(live: seq<int>)
    ensures Falling(StakesDown(live))
    ensures multiset(StakesDown(live)) == Positives(live)
  {
    if |live| > 0 {
      StakesDownFacts(live[..|live| - 1]);
      if live[|live| - 1] > 0 {
        InsertDownFacts(StakesDown(live[..|live| - 1]), live[|live| - 1]);
        InsertDownKeeps(StakesDown(live[..|live| - 1]), live[|live| - 1]);
      }
    }
  }

  lemma {:induction false} HoldersFacts(live: seq<int>, x: int)
    ensures forall k :: 0 <= k < |Holders(live, x)| ==> Holders(live, x)[k] < |live| && live[Holders(live, x)[k]] == x
    ensures forall i :: 0 <= i < |live| && live[i] == x ==> i in Holders(live, x)
  {
    if |live| > 0 { HoldersFacts(live[..|live| - 1], x); }
  }

  lemma {:induction false} PositivesHas(live: seq<int>)
    ensures forall x :: x in Positives(live) <==> x > 0 && x in live
  {
    if |live| > 0 {
      PositivesHas(live[..|live| - 1]);
      assert live == live[..|live| - 1] + [live[|live| - 1]];
    }
  }

  lemma UncalledSound(live: seq<int>)
    requires Uncalled(live).Some?
    ensures IsUncalled(live, Uncalled(live).value.seat, Uncalled(live).value.chips)
  {
    hide StakesDown, Holders, Positives;
    var lives := StakesDown(live);
    StakesDownFacts(live);
    PositivesHas(live);
    HoldersFacts(live, lives[0]);
    var i := Holders(live, lives[0])[0];
    assert lives[1] in multiset(lives);
    var j :| 0 <= j < |live| && live[j] == lives[1];
    forall j | 0 <= j < |live| && j != i ensures live[j] <= lives[1] {
      if live[j] > 0 {
        assert live[j] in multiset(lives);
        var k :| 0 <= k < |lives| && lives[k] == live[j];
        assert j in Holders(live, lives[0]) ==> j == i;
      }
    }
  }

  lemma TwoSame(s: seq<int>, a: int)
    requires |s| >= 2
    ensures s[0] == a && s[1] == a ==> multiset(s)[a] >= 2
  {
    assert s == [s[0], s[1]] + s[2..];
  }

  lemma {:induction false} NoHolder(live: seq<int>, x: int)
    requires forall j :: 0 <= j < |live| ==> live[j] != x
    ensures Holders(live, x) == [] && Positives(live)[x] == 0
  {
    if |live| > 0 { NoHolder(live[..|live| - 1], x); }
  }

  lemma {:induction false} OneHolder(live: seq<int>, seat: nat)
    requires seat < |live| && live[seat] > 0
    requires forall j :: 0 <= j < |live| && j != seat ==> live[j] != live[seat]
    ensures Holders(live, live[seat]) == [seat]
    ensures Positives(live)[live[seat]] == 1
  {
    var rest := live[..|live| - 1];
    if seat == |live| - 1 {
      NoHolder(rest, live[seat]);
    } else {
      OneHolder(rest, seat);
    }
  }

  lemma UncalledComplete(live: seq<int>, seat: nat, chips: int)
    requires IsUncalled(live, seat, chips)
    ensures Uncalled(live) == Some(Refund(seat, chips))
  {
    var lives, a, b := StakesDown(live), live[seat], live[seat] - chips;
    StakesDownFacts(live);
    PositivesHas(live);
    OneHolder(live, seat);
    assert a in multiset(lives) && b in multiset(lives);
    var p :| 0 <= p < |lives| && lives[p] == a;
    var q :| 0 <= q < |lives| && lives[q] == b;
    assert lives[0] in multiset(lives);
    assert lives[0] == a;
    TwoSame(lives, a);
    assert lives[1] in multiset(lives);
    assert lives[1] == b;
  }

  /** `settle` step 1 returns chips exactly when one bet tops every other, and exactly the excess. */
  lemma UncalledExact(live: seq<int>, seat: nat, chips: int)
    ensures Uncalled(live) == Some(Refund(seat, chips)) <==> IsUncalled(live, seat, chips)
  {
    if Uncalled(live) == Some(Refund(seat, chips)) { UncalledSound(live); }
    if IsUncalled(live, seat, chips) { UncalledComplete(live, seat, chips); }
  }

  // ---------------------------------------------- sharing one amount

  /** Seats some winners hold; `n` is the number of seats at the table. */
  predicate Winners(w: seq<nat>, n: nat) {
    |w| > 0 && Seats(w, n) && Different(w)
  }

  /** `for i in winners: chips[i] += share`. */
  function PayEach(chips: seq<int>, winners: seq<nat>, share: int): (r: seq<int>)
    requires Seats(winners, |chips|)
    ensures |r| == |chips|
  {
    if |winners| == 0 then chips
    else
      var k := |winners| - 1;
      var before := PayEach(chips, winners[..k], share);
      before[winners[k] := before[winners[k]] + share]
  }

  /** `(j + 1) % n` for a seat `j`. */
  function NextSeat(j: nat, n: nat): (k: nat)
    requires j < n
    ensures k < n
  {
    if j + 1 < n then j + 1 else 0
  }

  /** Steps to walk forward from seat `j` to seat `w`, never zero. */
  function Steps(j: nat, w: nat, n: nat): (d: int)
    requires j < n && w < n
    ensures 1 <= d <= n
  {
    if w > j then w - j else w - j + n
  }

  /** The odd-chip walk: forward from seat `j`, one chip to each winner met, until `rem` are gone. */
  function OddChips(chips: seq<int>, winners: seq<nat>, j: nat, rem: nat): (r: seq<int>)
    requires Winners(winners, |chips|) && j < |chips|
    ensures |r| == |chips|
    decreases rem, Steps(j, winners[0], |chips|)
  {
    if rem == 0 then chips
    else
      var k := NextSeat(j, |chips|);
      if k in winners then OddChips(chips[k := chips[k] + 1], winners, k, rem - 1)
      else OddChips(chips, winners, k, rem)
  }

  /** One pot's (or run's) chips: equal shares, odd chips to the first winners left of the button. */
  function Share(chips: seq<int>, winners: seq<nat>, amount: int, button: nat): (r: seq<int>)
    requires Winners(winners, |chips|) && button < |chips|
    ensures |r| == |chips|
  {
    OddChips(PayEach(chips, winners, amount / |winners|), winners, button, amount % |winners|)
  }

  lemma {:induction false} PayEachIs(chips: seq<int>, winners: seq<nat>, share: int)
    requires Seats(winners, |chips|) && Different(winners)
    ensures forall i :: 0 <= i < |chips| ==>
              PayEach(chips, winners, share)[i] == chips[i] + (if i in winners then share else 0)
  {
    if |winners| > 0 {
      var k := |winners| - 1;
      PayEachIs(chips, winners[..k], share);
      assert winners == winners[..k] + [winners[k]];
      assert winners[k] !in winners[..k];
    }
  }

  lemma {:induction false} PayEachSum(chips: seq<int>, winners: seq<nat>, share: int)
    requires Seats(winners, |chips|)
    ensures Sum(PayEach(chips, winners, share)) == Sum(chips) + |winners| * share
  {
    if |winners| > 0 {
      var k := |winners| - 1;
      PayEachSum(chips, winners[..k], share);
      var before := PayEach(chips, winners[..k], share);
      SumUpdate(before, winners[k], before[winners[k]] + share);
      assert |winners| * share == k * share + share;
    }
  }

  lemma {:induction false} OddChipsSum(chips: seq<int>, winners: seq<nat>, j: nat, rem: nat)
    requires Winners(winners, |chips|) && j < |chips|
    ensures Sum(OddChips(chips, winners, j, rem)) == Sum(chips) + rem
    decreases rem, Steps(j, winners[0], |chips|)
  {
    if rem > 0 {
      var k := NextSeat(j, |chips|);
      if k in winners {
        SumUpdate(chips, k, chips[k] + 1);
        OddChipsSum(chips[k := chips[k] + 1], winners, k, rem - 1);
      } else {
        OddChipsSum(chips, winners, k, rem);
      }
    }
  }

  lemma {:induction false} OddChipsGrow(chips: seq<int>, winners: seq<nat>, j: nat, rem: nat, i: nat)
    requires Winners(winners, |chips|) && j < |chips| && i < |chips|
    ensures OddChips(chips, winners, j, rem)[i] >= chips[i]
    ensures i !in winners ==> OddChips(chips, winners, j, rem)[i] == chips[i]
    decreases rem, Steps(j, winners[0], |chips|)
  {
    if rem > 0 {
      var k := NextSeat(j, |chips|);
      if k in winners {
        OddChipsGrow(chips[k := chips[k] + 1], winners, k, rem - 1, i);
      } else {
        OddChipsGrow(chips, winners, k, rem, i);
      }
    }
  }

  lemma DivMod(a: int, b: int)
    requires b > 0
    ensures b * (a / b) + a % b == a
    ensures 0 <= a % b < b
    ensures a >= 0 ==> a / b >= 0
  {
  }

  /** Sharing pays out exactly the amount. */
  lemma ShareSum(chips: seq<int>, winners: seq<nat>, amount: int, button: nat)
    requires Winners(winners, |chips|) && button < |chips|
    ensures Sum(Share(chips, winners, amount, button)) == Sum(chips) + amount
  {
    var share, rem := amount / |winners|, amount % |winners|;
    DivMod(amount, |winners|);
    PayEachSum(chips, winners, share);
    OddChipsSum(PayEach(chips, winners, share), winners, button, rem);
  }

  /** It pays winners only, and takes nothing from anybody. */
  lemma ShareOnlyWinners(chips: seq<int>, winners: seq<nat>, amount: int, button: nat, i: nat)
    requires Winners(winners, |chips|) && button < |chips| && i < |chips|
    ensures i !in winners ==> Share(chips, winners, amount, button)[i] == chips[i]
    ensures amount >= 0 ==> Share(chips, winners, amount, button)[i] >= chips[i]
  {
    var share, rem := amount / |winners|, amount % |winners|;
    DivMod(amount, |winners|);
    PayEachIs(chips, winners, share);
    OddChipsGrow(PayEach(chips, winners, share), winners, button, rem, i);
  }

  // ------------------------------------------- who gets the odd chips

  /** Winners the walk meets after its first `t` steps and before seat `i`. */
  function Between(winners: seq<nat>, button: nat, n: nat, t: int, i: nat): (r: set<nat>)
    requires Seats(winners, n) && button < n && i < n
  {
    set w | w in winners && t < Steps(button, w, n) < Steps(button, i, n)
  }

  /** Winners the walk has not met after `t` steps. */
  function Ahead(winners: seq<nat>, button: nat, n: nat, t: int): (r: set<nat>)
    requires Seats(winners, n) && button < n
  {
    set w | w in winners && t < Steps(button, w, n)
  }

  predicate GetsOdd(winners: seq<nat>, button: nat, n: nat, t: int, rem: int, i: nat)
    requires Seats(winners, n) && button < n && i < n
  {
    i in winners && t < Steps(button, i, n) && |Between(winners, button, n, t, i)| < rem
  }

  lemma StepsInjective(button: nat, w: nat, k: nat, n: nat)
    requires button < n && w < n && k < n
    ensures Steps(button, w, n) == Steps(button, k, n) <==> w == k
  {
  }

  /** A step onto a winner takes it from those ahead; any other step changes nothing. */
  lemma BetweenStep(winners: seq<nat>, button: nat, n: nat, t: int, k: nat, i: nat)
    requires Seats(winners, n) && button < n && i < n && k < n && Steps(button, k, n) == t + 1
    ensures k !in Between(winners, button, n, t + 1, i)
    ensures Between(winners, button, n, t, i) ==
              if k in winners && t + 1 < Steps(button, i, n) then Between(winners, button, n, t + 1, i) + {k}
              else Between(winners, button, n, t + 1, i)
  {
    var A, B := Between(winners, button, n, t, i), Between(winners, button, n, t + 1, i);
    forall w: nat | w in winners ensures w in A <==> w in B || (w == k && t + 1 < Steps(button, i, n)) {
      StepsInjective(button, w, k, n);
    }
  }

  lemma OddStep(winners: seq<nat>, button: nat, n: nat, t: int, rem: int, k: nat, i: nat)
    requires Seats(winners, n) && button < n && i < n && k < n && Steps(button, k, n) == t + 1 && rem > 0
    ensures k in winners && i == k ==> GetsOdd(winners, button, n, t, rem, i)
    ensures k in winners && i == k ==> !GetsOdd(winners, button, n, t + 1, rem - 1, i)
    ensures k in winners && i != k ==>
              (GetsOdd(winners, button, n, t, rem, i) <==> GetsOdd(winners, button, n, t + 1, rem - 1, i))
    ensures k !in winners ==> (GetsOdd(winners, button, n, t, rem, i) <==> GetsOdd(winners, button, n, t + 1, rem, i))
  {
    BetweenStep(winners, button, n, t, k, i);
    StepsInjective(button, i, k, n);
    assert i == k ==> Between(winners, button, n, t, i) == {};
  }

  lemma AheadStep(winners: seq<nat>, button: nat, n: nat, t: int, k: nat)
    requires Seats(winners, n) && button < n && k < n && Steps(button, k, n) == t + 1
    ensures |Ahead(winners, button, n, t)| == |Ahead(winners, button, n, t + 1)| + (if k in winners then 1 else 0)
  {
    var A, B := Ahead(winners, button, n, t), Ahead(winners, button, n, t + 1);
    forall w: nat | w in winners ensures w in A <==> w in B || w == k {
      StepsInjective(button, w, k, n);
    }
    assert A == if k in winners then B + {k} else B;
    assert k !in B;
  }

  lemma AheadBound(winners: seq<nat>, button: nat, n: nat, t: int)
    requires Seats(winners, n) && button < n && |Ahead(winners, button, n, t)| > 0
    ensures t < n
  {
    var w :| w in Ahead(winners, button, n, t);
  }

  predicate AtStep(button: nat, j: nat, t: int, n: nat) {
    button < n && j < n && if t == 0 then j == button else t == Steps(button, j, n)
  }

  lemma {:induction false} OddWalk(chips: seq<int>, winners: seq<nat>, button: nat, j: nat, t: int, rem: nat, i: nat)
    requires Winners(winners, |chips|) && i < |chips| && AtStep(button, j, t, |chips|)
    requires rem <= |Ahead(winners, button, |chips|, t)|
    ensures OddChips(chips, winners, j, rem)[i] ==
              chips[i] + (if GetsOdd(winners, button, |chips|, t, rem, i) then 1 else 0)
    decreases rem, Steps(j, winners[0], |chips|)
  {
    if rem > 0 {
      var n := |chips|;
      AheadBound(winners, button, n, t);
      var k := NextSeat(j, n);
      assert Steps(button, k, n) == t + 1;
      OddStep(winners, button, n, t, rem, k, i);
      AheadStep(winners, button, n, t, k);
      if k in winners {
        OddWalk(chips[k := chips[k] + 1], winners, button, k, t + 1, rem - 1, i);
      } else {
        OddWalk(chips, winners, button, k, t + 1, rem, i);
      }
    }
  }

  /** Seat `i` is among the first `rem` winners left of the button. */
  predicate FirstLeft(winners: seq<nat>, button: nat, n: nat, rem: int, i: nat)
    requires Seats(winners, n) && button < n && i < n
  {
    i in winners && |set w | w in winners && Steps(button, w, n) < Steps(button, i, n)| < rem
  }

  function SeatSet(s: seq<nat>): (r: set<nat>) {
    set w | w in s
  }

  lemma {:induction false} SeatCount(s: seq<nat>)
    requires Different(s)
    ensures |SeatSet(s)| == |s|
  {
    if |s| > 0 {
      var k := |s| - 1;
      SeatCount(s[..k]);
      assert SeatSet(s) == SeatSet(s[..k]) + {s[k]};
      assert s[k] !in SeatSet(s[..k]);
    }
  }

  /** Each winner gets the equal share, and one more chip exactly if it is among the first `rem` left of the button. */
  lemma ShareIsFair(chips: seq<int>, winners: seq<nat>, amount: int, button: nat, i: nat)
    requires Winners(winners, |chips|) && button < |chips| && i < |chips|
    ensures Share(chips, winners, amount, button)[i] == chips[i]
              + (if i in winners then amount / |winners| else 0)
              + (if FirstLeft(winners, button, |chips|, amount % |winners|, i) then 1 else 0)
  {
    var n, share, rem := |chips|, amount / |winners|, amount % |winners|;
    DivMod(amount, |winners|);
    PayEachIs(chips, winners, share);
    SeatCount(winners);
    assert Ahead(winners, button, n, 0) == SeatSet(winners);
    OddWalk(PayEach(chips, winners, share), winners, button, button, 0, rem, i);
    assert Between(winners, button, n, 0, i) == set w | w in winners && Steps(button, w, n) < Steps(button, i, n);
  }
}
