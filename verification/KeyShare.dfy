/**
 How many connections each endpoint gets when they follow its share of the key traffic
 (src/worker.rs). Shares are real numbers.
 */
module KeyShare {
  function Sum(counts: seq<nat>): nat {
    if counts == [] then 0 else counts[0] + Sum(counts[1..])
  }

  function RealSum(xs: seq<real>): real {
    if xs == [] then 0.0 else xs[0] + RealSum(xs[1..])
  }

  /** How far endpoint `e` is below its target. */
  function Deficit(targets: seq<real>, counts: seq<nat>, e: nat): real
    requires e < |targets| == |counts|
  {
    targets[e] - counts[e] as real
  }

  /** An endpoint's first allotment: the floor of its target, and at least one if it owns keys. */
  function Raised(target: real): (r: nat)
    ensures target == 0.0 ==> r == 0
    ensures target > 0.0 ==> r >= 1 && r as real < target + 1.0
    ensures r > 1 ==> r as real <= target < r as real + 1.0
    ensures target > 0.0 ==> target < r as real + 1.0
  {
    if target <= 0.0 then 0 else if target.Floor < 1 then 1 else target.Floor
  }

  function AllRaised(targets: seq<real>): (r: seq<nat>)
    ensures |r| == |targets| && forall e | 0 <= e < |r| :: r[e] == Raised(targets[e])
  {
    seq(|targets|, e requires 0 <= e < |targets| => Raised(targets[e]))
  }

  /** Endpoints that own keys get at least one connection, the others none, and nobody one more than its target. */
  predicate Fair(targets: seq<real>, counts: seq<nat>) {
    && |counts| == |targets|
    && forall e | 0 <= e < |targets| ::
         (if targets[e] > 0.0 then counts[e] >= 1 else counts[e] == 0) && Deficit(targets, counts, e) > -1.0
  }

  /** Every count is within one of its target. */
  predicate Close(targets: seq<real>, counts: seq<nat>) {
    |counts| == |targets| && forall e | 0 <= e < |targets| :: -1.0 < Deficit(targets, counts, e) < 1.0
  }

  // ---- Sums ------------------------------------------------------------------------------------------

  lemma {:induction false} SumUpdate(counts: seq<nat>, e: nat, c: nat)
    requires e < |counts|
    ensures Sum(counts[e := c]) == Sum(counts) - counts[e] + c
  {
    if e == 0 {
      assert counts[e := c][1..] == counts[1..];
    } else {
      SumUpdate(counts[1..], e - 1, c);
      assert counts[e := c][1..] == counts[1..][e - 1 := c];
    }
  }

  lemma {:induction false} SumSnoc(counts: seq<nat>, c: nat)
    ensures Sum(counts + [c]) == Sum(counts) + c
  {
    if counts == [] {
      assert [] + [c] == [c];
    } else {
      SumSnoc(counts[1..], c);
      assert (counts + [c])[1..] == counts[1..] + [c];
    }
  }

  lemma {:induction false} SumSmaller(a: seq<nat>, b: seq<nat>)
    requires |a| == |b| && forall e | 0 <= e < |a| :: a[e] <= b[e]
    ensures Sum(a) <= Sum(b)
  {
    if a != [] {
      SumSmaller(a[1..], b[1..]);
      assert a == [a[0]] + a[1..] && b == [b[0]] + b[1..];
    }
  }

  /** Counts that are nowhere below their targets sum to no less. */
  lemma {:induction false} NoDeficitNoShortfall(targets: seq<real>, counts: seq<nat>)
    requires |targets| == |counts| && forall e | 0 <= e < |targets| :: Deficit(targets, counts, e) <= 0.0
    ensures RealSum(targets) <= Sum(counts) as real
  {
    if targets != [] {
      forall e | 0 <= e < |targets| - 1 ensures Deficit(targets[1..], counts[1..], e) <= 0.0 {
        assert Deficit(targets, counts, e + 1) <= 0.0;
      }
      assert Deficit(targets, counts, 0) <= 0.0;
      NoDeficitNoShortfall(targets[1..], counts[1..]);
    }
  }

  /** Counts of at most one, and none for endpoints without keys, sum to no more than the endpoints with keys. */
  lemma {:induction false} OnesAreFew(targets: seq<real>, counts: seq<nat>)
    requires |targets| == |counts| && forall e | 0 <= e < |targets| :: counts[e] <= if targets[e] > 0.0 then 1 else 0
    ensures Sum(counts) <= LiveCount(targets)
  {
    if targets != [] {
      OnesAreFew(targets[1..], counts[1..]);
    }
  }

  /** How many endpoints own keys. */
  function LiveCount(targets: seq<real>): nat {
    if targets == [] then 0 else (if targets[0] > 0.0 then 1 else 0) + LiveCount(targets[1..])
  }

  // ---- The two adjustments -----------------------------------------------------------------------------

  lemma SomeoneIsShort(targets: seq<real>, counts: seq<nat>, total: nat)
    requires |targets| == |counts| && RealSum(targets) == total as real && Sum(counts) < total
    ensures exists e :: 0 <= e < |targets| && Deficit(targets, counts, e) > 0.0
  {
    if forall e | 0 <= e < |targets| :: Deficit(targets, counts, e) <= 0.0 {
      NoDeficitNoShortfall(targets, counts);
    }
  }

  lemma SomeoneHasMore(targets: seq<real>, counts: seq<nat>, total: nat)
    requires Fair(targets, counts) && LiveCount(targets) <= total < Sum(counts)
    ensures exists e :: 0 <= e < |targets| && counts[e] > 1
  {
    if forall e | 0 <= e < |targets| :: counts[e] <= 1 {
      OnesAreFew(targets, counts);
    }
  }

  lemma AddKeeps(targets: seq<real>, counts: seq<nat>, e: nat)
    requires Fair(targets, counts) && e < |targets| && Deficit(targets, counts, e) > 0.0
    ensures Fair(targets, counts[e := counts[e] + 1])
    ensures Close(targets, counts) ==> Close(targets, counts[e := counts[e] + 1])
  {
    var more := counts[e := counts[e] + 1];
    forall i | 0 <= i < |targets|
      ensures (if targets[i] > 0.0 then more[i] >= 1 else more[i] == 0) && Deficit(targets, more, i) > -1.0
      ensures Close(targets, counts) ==> Deficit(targets, more, i) < 1.0
    {
      assert Deficit(targets, counts, i) > -1.0;
    }
  }

  lemma TakeKeeps(targets: seq<real>, counts: seq<nat>, e: nat)
    requires Fair(targets, counts) && e < |targets| && counts[e] > 1
    ensures Fair(targets, counts[e := counts[e] - 1])
  {
    var fewer := counts[e := counts[e] - 1];
    forall i | 0 <= i < |targets|
      ensures (if targets[i] > 0.0 then fewer[i] >= 1 else fewer[i] == 0) && Deficit(targets, fewer, i) > -1.0
    {
      assert Deficit(targets, counts, i) > -1.0;
    }
  }

  lemma RaisedIsFairAndClose(targets: seq<real>)
    requires forall e | 0 <= e < |targets| :: targets[e] >= 0.0
    ensures Fair(targets, AllRaised(targets)) && Close(targets, AllRaised(targets))
  {
  }

  /** A count reduced below its first allotment is a whole connection or more short. */
  lemma ReducedIsFar(targets: seq<real>, counts: seq<nat>)
    requires |counts| == |targets|
    requires forall e | 0 <= e < |targets| :: counts[e] <= Raised(targets[e])
    requires forall e | 0 <= e < |targets| :: targets[e] >= 0.0 && (targets[e] > 0.0 ==> counts[e] >= 1)
    requires Sum(counts) < Sum(AllRaised(targets))
    ensures !Close(targets, counts)
  {
    if forall e | 0 <= e < |targets| :: AllRaised(targets)[e] <= counts[e] {
      SumSmaller(AllRaised(targets), counts);
    }
    var e :| 0 <= e < |targets| && counts[e] < Raised(targets[e]);
    assert Deficit(targets, counts, e) >= 1.0;
  }

  // ---- The allotment ---------------------------------------------------------------------------------------

  /** The last endpoint furthest below its target, of those that own keys. */
  method FurthestBelow(targets: seq<real>, counts: array<nat>) returns (e: nat)
    requires |targets| == counts.Length
    requires exists i :: 0 <= i < |targets| && targets[i] > 0.0
    ensures e < |targets| && targets[e] > 0.0
    ensures forall i | 0 <= i < |targets| && targets[i] > 0.0 ::
              Deficit(targets, counts[..], i) <= Deficit(targets, counts[..], e)
    ensures forall i | e < i < |targets| && targets[i] > 0.0 ::
              Deficit(targets, counts[..], i) < Deficit(targets, counts[..], e)
  {
    var found := false;
    e := 0;
    for i := 0 to |targets|
      invariant e < |targets|
      invariant found ==> targets[e] > 0.0 && e < i
      invariant forall j | 0 <= j < i && targets[j] > 0.0 ::
                  found && Deficit(targets, counts[..], j) <= Deficit(targets, counts[..], e)
      invariant forall j | e < j < i && targets[j] > 0.0 ::
                  Deficit(targets, counts[..], j) < Deficit(targets, counts[..], e)
    {
      if targets[i] > 0.0 && (!found || targets[e] - counts[e] as real <= targets[i] - counts[i] as real) {
        e, found := i, true;
      }
    }
  }

  /** The first endpoint furthest above its target, of those with more than one connection. */
  method FurthestAbove(targets: seq<real>, counts: array<nat>) returns (e: nat)
    requires |targets| == counts.Length
    requires exists i :: 0 <= i < |targets| && counts[i] > 1
    ensures e < |targets| && counts[e] > 1
    ensures forall i | 0 <= i < |targets| && counts[i] > 1 ::
              Deficit(targets, counts[..], i) >= Deficit(targets, counts[..], e)
    ensures forall i | 0 <= i < e && counts[i] > 1 ::
              Deficit(targets, counts[..], i) > Deficit(targets, counts[..], e)
  {
    var found := false;
    e := 0;
    for i := 0 to |targets|
      invariant e < |targets|
      invariant found ==> counts[e] > 1 && e < i
      invariant forall j | 0 <= j < i && counts[j] > 1 ::
                  found && Deficit(targets, counts[..], j) >= Deficit(targets, counts[..], e)
      invariant forall j | 0 <= j < e && counts[j] > 1 ::
                  found ==> Deficit(targets, counts[..], j) > Deficit(targets, counts[..], e)
    {
      if counts[i] > 1 && (!found || targets[i] - counts[i] as real < targets[e] - counts[e] as real) {
        e, found := i, true;
      }
    }
  }

  method Total(counts: array<nat>) returns (sum: nat)
    ensures sum == Sum(counts[..])
  {
    sum := 0;
    for e := 0 to counts.Length
      invariant sum == Sum(counts[..e])
    {
      SumSnoc(counts[..e], counts[e]);
      assert counts[..e + 1] == counts[..e] + [counts[e]];
      sum := sum + counts[e];
    }
    assert counts[..counts.Length] == counts[..];
  }

  lemma ShortIsLive(targets: seq<real>, counts: seq<nat>, total: nat)
    requires Fair(targets, counts) && RealSum(targets) == total as real && Sum(counts) < total
    requires forall e | 0 <= e < |targets| :: targets[e] >= 0.0
    ensures exists e :: 0 <= e < |targets| && targets[e] > 0.0 && Deficit(targets, counts, e) > 0.0
  {
    SomeoneIsShort(targets, counts, total);
    var e :| 0 <= e < |targets| && Deficit(targets, counts, e) > 0.0;
    assert targets[e] > 0.0;
  }

  /** Add one connection at a time to whoever is furthest below its target. */
  method AddConnections(targets: seq<real>, counts: array<nat>, sum: nat, total: nat)
    requires forall e | 0 <= e < |targets| :: targets[e] >= 0.0
    requires RealSum(targets) == total as real && sum == Sum(counts[..]) <= total
    requires Fair(targets, counts[..]) && Close(targets, counts[..])
    modifies counts
    ensures Fair(targets, counts[..]) && Close(targets, counts[..]) && Sum(counts[..]) == total
  {
    var have := sum;
    while have < total
      invariant have == Sum(counts[..]) <= total
      invariant Fair(targets, counts[..]) && Close(targets, counts[..])
    {
      ghost var before := counts[..];
      ShortIsLive(targets, before, total);
      var e := FurthestBelow(targets, counts);
      AddKeeps(targets, before, e);
      SumUpdate(before, e, before[e] + 1);
      hide Fair, Close, Sum, Deficit;
      counts[e] := counts[e] + 1;
      assert counts[..] == before[e := before[e] + 1];
      have := have + 1;
    }
  }

  /** Take one connection at a time from whoever is furthest above its target. */
  method TakeConnections(targets: seq<real>, counts: array<nat>, sum: nat, total: nat)
    requires LiveCount(targets) <= total < sum == Sum(counts[..])
    requires Fair(targets, counts[..])
    modifies counts
    ensures Fair(targets, counts[..]) && Sum(counts[..]) == total
    ensures forall e | 0 <= e < counts.Length :: counts[e] <= old(counts[e])
  {
    var have := sum;
    while have > total
      invariant have == Sum(counts[..]) >= total
      invariant Fair(targets, counts[..])
      invariant forall e | 0 <= e < counts.Length :: counts[e] <= old(counts[e])
    {
      ghost var before := counts[..];
      SomeoneHasMore(targets, before, total);
      var e := FurthestAbove(targets, counts);
      TakeKeeps(targets, before, e);
      SumUpdate(before, e, before[e] - 1);
      hide Fair, Close, Sum, Deficit;
      counts[e] := counts[e] - 1;
      assert counts[..] == before[e := before[e] - 1];
      have := have - 1;
    }
  }

  /**
   Split `total` connections by target: the first allotments, then one at a time to whoever is furthest below
   its target, or from whoever is furthest above. Every count ends within one of its target exactly when the
   first allotments did not already exceed the total.
   */
  method Allot(targets: seq<real>, total: nat) returns (counts: array<nat>)
    requires forall e | 0 <= e < |targets| :: targets[e] >= 0.0
    requires RealSum(targets) == total as real && LiveCount(targets) <= total
    ensures fresh(counts) && Fair(targets, counts[..])
    ensures Sum(counts[..]) == total
    ensures Close(targets, counts[..]) <==> Sum(AllRaised(targets)) <= total
  {
    counts := new nat[|targets|](e requires 0 <= e < |targets| => Raised(targets[e]));
    assert counts[..] == AllRaised(targets);
    RaisedIsFairAndClose(targets);
    ghost var first := counts[..];
    var sum := Total(counts);
    if sum <= total {
      AddConnections(targets, counts, sum, total);
    } else {
      TakeConnections(targets, counts, sum, total);
      FairIsLive(targets, counts[..]);
      hide Raised, Fair, Close;
      forall e | 0 <= e < |targets| ensures counts[e] <= Raised(targets[e]) {
        assert counts[e] <= first[e];
      }
      ReducedIsFar(targets, counts[..]);
    }
  }

  lemma FairIsLive(targets: seq<real>, counts: seq<nat>)
    requires Fair(targets, counts)
    ensures |counts| == |targets| && forall e | 0 <= e < |targets| && targets[e] > 0.0 :: counts[e] >= 1
  {
  }
}
