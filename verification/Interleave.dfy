/**
 The order in which connections are dealt to endpoints once their numbers are settled
 (src/worker.rs): endpoint `e`'s `k`-th connection at (k + 1/2) / counts[e], in position order.
 */
module Interleave {
  import opened KeyShare
  import opened Numbers

  datatype Slot = Slot(k: nat, e: nat)

  /**
   `a` comes before `b`: a smaller position, or the same one and a smaller endpoint. Positions
   are compared crosswise.
   */
  predicate Before(counts: seq<nat>, a: Slot, b: Slot)
    requires a.e < |counts| && b.e < |counts|
  {
    var left, right := (2 * a.k + 1) * counts[b.e], (2 * b.k + 1) * counts[a.e];
    left < right || (left == right && a.e < b.e)
  }

  predicate IsSlot(counts: seq<nat>, s: Slot) { s.e < |counts| && s.k < counts[s.e] }

  predicate Sorted(counts: seq<nat>, order: seq<Slot>) {
    && (forall i | 0 <= i < |order| :: IsSlot(counts, order[i]))
    && forall i, j | 0 <= i < j < |order| :: Before(counts, order[i], order[j])
  }

  /** Every slot, once, in order. */
  predicate IsOrder(counts: seq<nat>, order: seq<Slot>) {
    && Sorted(counts, order)
    && forall e, k: nat | 0 <= e < |counts| && k < counts[e] :: Slot(k, e) in order
  }

  // ---- The order is a strict one -----------------------------------------------------------------------

  lemma CrossCancel(x: nat, y: nat, c: nat)
    requires c >= 1
    ensures x * c < y * c <==> x < y
    ensures x * c == y * c <==> x == y
  {
    ProductOrder(x, y, c);
    ProductOrder(y, x, c);
  }

  /** Cross-multiplied positions compare as fractions do. */
  lemma CrossTransitive(p: nat, a: nat, q: nat, b: nat, r: nat, c: nat)
    requires a >= 1 && b >= 1 && c >= 1
    requires p * b <= q * a && q * c <= r * b
    ensures p * c <= r * a
    ensures p * b < q * a || q * c < r * b ==> p * c < r * a
  {
    // (p b) c <= (q a) c = (q c) a <= (r b) a
    ProductOrder(p * b, q * a, c);
    ProductOrder(q * c, r * b, a);
    Shuffle(p, b, c);
    Shuffle(q, a, c);
    Shuffle(r, b, a);
    CrossCancel(p * c, r * a, b);
  }

  lemma Shuffle(x: nat, y: nat, z: nat)
    ensures (x * y) * z == (x * z) * y
  {
  }

  lemma BeforeTransitive(counts: seq<nat>, a: Slot, b: Slot, c: Slot)
    requires IsSlot(counts, a) && IsSlot(counts, b) && IsSlot(counts, c)
    requires Before(counts, a, b) && Before(counts, b, c)
    ensures Before(counts, a, c)
  {
    CrossTransitive(2 * a.k + 1, counts[a.e], 2 * b.k + 1, counts[b.e], 2 * c.k + 1, counts[c.e]);
  }

  /** Two different slots are ordered one way, and one way only. */
  lemma BeforeTotal(counts: seq<nat>, a: Slot, b: Slot)
    requires IsSlot(counts, a) && IsSlot(counts, b)
    ensures a != b ==> Before(counts, a, b) || Before(counts, b, a)
    ensures !(Before(counts, a, b) && Before(counts, b, a))
  {
    if a.e == b.e {
      CrossCancel(2 * a.k + 1, 2 * b.k + 1, counts[a.e]);
    }
  }

  // ---- Dealing -------------------------------------------------------------------------------------------

  lemma InsertKeepsSorted(counts: seq<nat>, order: seq<Slot>, s: Slot, i: nat)
    requires Sorted(counts, order) && IsSlot(counts, s) && i <= |order|
    requires i > 0 ==> Before(counts, order[i - 1], s)
    requires i < |order| ==> Before(counts, s, order[i])
    ensures Sorted(counts, order[..i] + [s] + order[i..])
  {
    hide Before;
    var more := order[..i] + [s] + order[i..];
    forall j, k | 0 <= j < k < |more| ensures Before(counts, more[j], more[k]) {
      if k < i {
        assert Before(counts, order[j], order[k]);
      } else if k == i {
        if j < i - 1 {
          assert Before(counts, order[j], order[i - 1]);
          BeforeTransitive(counts, order[j], order[i - 1], s);
        }
      } else if j == i {
        if k > i + 1 {
          assert Before(counts, order[i], order[k - 1]);
          BeforeTransitive(counts, s, order[i], order[k - 1]);
        }
      } else if j > i {
        assert Before(counts, order[j - 1], order[k - 1]);
      } else {
        assert Before(counts, order[j], order[k - 1]);
      }
    }
  }

  /** Put a slot where it belongs in a sorted list that does not have it. */
  method Insert(counts: seq<nat>, order: seq<Slot>, s: Slot) returns (more: seq<Slot>)
    requires Sorted(counts, order) && IsSlot(counts, s) && s !in order
    ensures Sorted(counts, more) && |more| == |order| + 1
    ensures forall t :: t in more <==> t in order || t == s
  {
    var i := |order|;
    while i > 0 && Before(counts, s, order[i - 1])
      invariant 0 <= i <= |order| && (i < |order| ==> Before(counts, s, order[i]))
    {
      i := i - 1;
    }
    if i > 0 {
      assert order[i - 1] in order;
      BeforeTotal(counts, order[i - 1], s);
    }
    InsertKeepsSorted(counts, order, s, i);
    hide Before, Sorted;
    more := order[..i] + [s] + order[i..];
    assert order == order[..i] + order[i..];
  }

  /** Every endpoint's connections, in position order. */
  method Deal(counts: seq<nat>) returns (order: seq<Slot>)
    ensures IsOrder(counts, order) && |order| == Sum(counts)
  {
    order := [];
    for e := 0 to |counts|
      invariant Sorted(counts, order) && |order| == Sum(counts[..e])
      invariant forall s :: s in order <==> IsSlot(counts, s) && s.e < e
    {
      for k := 0 to counts[e]
        invariant Sorted(counts, order) && |order| == Sum(counts[..e]) + k
        invariant forall s :: s in order <==> IsSlot(counts, s) && (s.e < e || (s.e == e && s.k < k))
      {
        order := Insert(counts, order, Slot(k, e));
      }
      SumSnoc(counts[..e], counts[e]);
      assert counts[..e + 1] == counts[..e] + [counts[e]];
    }
    assert counts[..|counts|] == counts;
  }

  // ---- Balance -------------------------------------------------------------------------------------------

  /** How many of the first connections go to endpoint `e`. */
  function Given(order: seq<Slot>, e: nat): nat {
    if order == [] then 0
    else Given(order[..|order| - 1], e) + if order[|order| - 1].e == e then 1 else 0
  }

  /** The connections of an endpoint among the first `n` are its earliest ones. */
  lemma {:induction false} EarliestFirst(counts: seq<nat>, order: seq<Slot>, n: nat, e: nat)
    requires IsOrder(counts, order) && n <= |order| && e < |counts|
    ensures Given(order[..n], e) <= counts[e]
    ensures forall k: nat | k < counts[e] :: Slot(k, e) in order[..n] <==> k < Given(order[..n], e)
    decreases n
  {
    if n > 0 {
      EarliestFirst(counts, order, n - 1, e);
      var last, g := order[n - 1], Given(order[..n - 1], e);
      assert order[..n][..n - 1] == order[..n - 1] && order[..n] == order[..n - 1] + [last];
      assert IsSlot(counts, last);
      if last.e == e {
        NotAgain(counts, order, n - 1);
        assert last.k >= g;
        if last.k > g {
          SkippedIsEarlier(counts, order, n - 1, g);
        }
      }
    }
  }

  /** No slot comes twice. */
  lemma NotAgain(counts: seq<nat>, order: seq<Slot>, i: nat)
    requires Sorted(counts, order) && i < |order|
    ensures order[i] !in order[..i]
  {
    if order[i] in order[..i] {
      var j :| 0 <= j < i && order[j] == order[i];
      BeforeTotal(counts, order[j], order[i]);
    }
  }

  /** An endpoint's earlier slot comes earlier. */
  lemma SkippedIsEarlier(counts: seq<nat>, order: seq<Slot>, i: nat, k: nat)
    requires IsOrder(counts, order) && i < |order| && k < order[i].k
    ensures Slot(k, order[i].e) in order[..i]
  {
    var s := Slot(k, order[i].e);
    assert IsSlot(counts, order[i]);
    assert s in order;
    var j :| 0 <= j < |order| && order[j] == s;
    CrossCancel(2 * k + 1, 2 * order[i].k + 1, counts[s.e]);
    assert Before(counts, s, order[i]);
    if j > i {
      BeforeTotal(counts, s, order[i]);
    }
    assert order[..i][j] == s;
  }

  /** One side of the balance: `a` is never more than half a connection of each ahead of `b`. */
  lemma NotAhead(counts: seq<nat>, order: seq<Slot>, n: nat, a: nat, b: nat)
    requires IsOrder(counts, order) && n <= |order| && a < |counts| && b < |counts|
    requires counts[a] >= 1 && counts[b] >= 1
    ensures 2 * (Given(order[..n], a) * counts[b] - Given(order[..n], b) * counts[a]) <= counts[a] + counts[b]
  {
    var ka, kb, ca, cb := Given(order[..n], a), Given(order[..n], b), counts[a], counts[b];
    LastGivenFirst(counts, order, n, a, b);
    AheadByHalf(ka, ca, kb, cb);
  }

  /** The last connection given to `a` comes no later than the first one `b` still waits for. */
  lemma LastGivenFirst(counts: seq<nat>, order: seq<Slot>, n: nat, a: nat, b: nat)
    requires IsOrder(counts, order) && n <= |order| && a < |counts| && b < |counts|
    requires counts[a] >= 1 && counts[b] >= 1
    ensures var ka, kb, ca, cb := Given(order[..n], a), Given(order[..n], b), counts[a], counts[b];
            ka <= ca && kb <= cb && (ka >= 1 && kb < cb ==> (2 * (ka - 1) + 1) * cb <= (2 * kb + 1) * ca)
  {
    var ka, kb, ca, cb := Given(order[..n], a), Given(order[..n], b), counts[a], counts[b];
    EarliestFirst(counts, order, n, a);
    EarliestFirst(counts, order, n, b);
    hide Given, IsOrder, Before;
    if ka >= 1 && kb < cb {
      if a != b {
        GivenBeforeWaiting(counts, order, n, Slot(ka - 1, a), Slot(kb, b));
      } else {
        ProductOrder(2 * (ka - 1) + 1, 2 * kb + 1, ca);
      }
    }
  }

  lemma AheadByHalf(ka: nat, ca: nat, kb: nat, cb: nat)
    requires ca >= 1 && cb >= 1 && ka <= ca && kb <= cb
    requires ka >= 1 && kb < cb ==> (2 * (ka - 1) + 1) * cb <= (2 * kb + 1) * ca
    ensures 2 * (ka * cb - kb * ca) <= ca + cb
  {
    if ka == 0 {
      assert ka * cb == 0;
    } else if kb < cb {
      FromPositions(ka, ca, kb, cb);
    } else {
      ProductOrder(ka, ca, cb);
    }
  }

  lemma GivenBeforeWaiting(counts: seq<nat>, order: seq<Slot>, n: nat, given: Slot, waiting: Slot)
    requires IsOrder(counts, order) && n <= |order| && IsSlot(counts, given) && IsSlot(counts, waiting)
    requires given in order[..n] && waiting !in order[..n]
    ensures (2 * given.k + 1) * counts[waiting.e] <= (2 * waiting.k + 1) * counts[given.e]
  {
    assert waiting in order;
    var i :| 0 <= i < n && order[i] == given;
    var j :| 0 <= j < |order| && order[j] == waiting;
    assert forall m | 0 <= m < n :: order[..n][m] == order[m] && order[m] in order[..n];
    assert Before(counts, order[i], order[j]);
  }

  lemma FromPositions(ka: nat, ca: nat, kb: nat, cb: nat)
    requires ka >= 1 && (2 * (ka - 1) + 1) * cb <= (2 * kb + 1) * ca
    ensures 2 * (ka * cb - kb * ca) <= ca + cb
  {
    assert (2 * (ka - 1) + 1) * cb == 2 * (ka * cb) - cb;
    assert (2 * kb + 1) * ca == 2 * (kb * ca) + ca;
  }

  /**
   After any number of connections, any two endpoints have been given theirs in proportion to their counts, to
   within half a connection of each.
   */
  lemma PrefixIsBalanced(counts: seq<nat>, order: seq<Slot>, n: nat, a: nat, b: nat)
    requires IsOrder(counts, order) && n <= |order| && a < |counts| && b < |counts|
    requires counts[a] >= 1 && counts[b] >= 1
    ensures var lead := Given(order[..n], a) * counts[b] - Given(order[..n], b) * counts[a];
            -(counts[a] + counts[b]) <= 2 * lead <= counts[a] + counts[b]
  {
    NotAhead(counts, order, n, a, b);
    NotAhead(counts, order, n, b, a);
  }

  /** So every worker's contiguous slice carries a proportional mix, to within one connection of each. */
  lemma SliceIsBalanced(counts: seq<nat>, order: seq<Slot>, from: nat, upTo: nat, a: nat, b: nat)
    requires IsOrder(counts, order) && from <= upTo <= |order| && a < |counts| && b < |counts|
    requires counts[a] >= 1 && counts[b] >= 1
    ensures var ga := Given(order[..upTo], a) - Given(order[..from], a);
            var gb := Given(order[..upTo], b) - Given(order[..from], b);
            -(counts[a] + counts[b]) <= ga * counts[b] - gb * counts[a] <= counts[a] + counts[b]
  {
    PrefixIsBalanced(counts, order, from, a, b);
    PrefixIsBalanced(counts, order, upTo, a, b);
    Distribute(Given(order[..upTo], a), Given(order[..from], a), counts[b]);
    Distribute(Given(order[..upTo], b), Given(order[..from], b), counts[a]);
  }

  lemma Distribute(x: int, y: int, c: int)
    ensures (x - y) * c == x * c - y * c
  {
  }

  // ---- The whole assignment ------------------------------------------------------------------------------

  /** The endpoints that own keys. */
  function Live(shares: seq<real>): (live: seq<nat>)
    ensures forall i | 0 <= i < |live| :: live[i] < |shares| && shares[live[i]] > 0.0
    ensures forall e | 0 <= e < |shares| && shares[e] > 0.0 :: e in live
  {
    if shares == [] then []
    else
      var last := |shares| - 1;
      Live(shares[..last]) + if shares[last] > 0.0 then [last] else []
  }

  lemma {:induction false} LiveInOrder(shares: seq<real>)
    ensures Increasing(Live(shares))
  {
    if shares != [] {
      LiveInOrder(shares[..|shares| - 1]);
    }
  }

  /** Who is dealt to in turn when not everyone can have one: those with keys, or everyone if nobody has. */
  function Pool(shares: seq<real>): (pool: seq<nat>)
    ensures pool != []
  {
    if Live(shares) != [] then Live(shares)
    else seq(if |shares| < 1 then 1 else |shares|, i => i)
  }

  function Target(share: real, total: nat): real { share * total as real }

  function Targets(shares: seq<real>, total: nat): (t: seq<real>)
    ensures |t| == |shares| && forall e | 0 <= e < |t| :: t[e] == Target(shares[e], total)
  {
    seq(|shares|, e requires 0 <= e < |shares| => Target(shares[e], total))
  }

  lemma {:induction false} TargetsSum(shares: seq<real>, total: nat)
    ensures RealSum(Targets(shares, total)) == Target(RealSum(shares), total)
  {
    if shares != [] {
      TargetsSum(shares[1..], total);
      AddTargets(shares[0], RealSum(shares[1..]), total);
      hide Target;
      assert Targets(shares, total)[1..] == Targets(shares[1..], total);
    }
  }

  lemma AddTargets(a: real, b: real, total: nat)
    ensures Target(a, total) + Target(b, total) == Target(a + b, total)
    ensures Target(0.0, total) == 0.0
  {
  }

  lemma TargetSign(share: real, total: nat)
    requires share >= 0.0 && total > 0
    ensures Target(share, total) >= 0.0 && (Target(share, total) > 0.0 <==> share > 0.0)
  {
  }

  lemma {:induction false} TargetsLive(shares: seq<real>, total: nat)
    requires total > 0 && forall e | 0 <= e < |shares| :: shares[e] >= 0.0
    ensures LiveCount(Targets(shares, total)) == LiveCount(shares)
    ensures forall e | 0 <= e < |shares| :: Targets(shares, total)[e] >= 0.0
    ensures forall e | 0 <= e < |shares| :: Targets(shares, total)[e] > 0.0 <==> shares[e] > 0.0
  {
    hide Target;
    if shares != [] {
      TargetsLive(shares[1..], total);
      assert Targets(shares, total)[1..] == Targets(shares[1..], total);
      forall e | 0 <= e < |shares|
        ensures Targets(shares, total)[e] >= 0.0 && (Targets(shares, total)[e] > 0.0 <==> shares[e] > 0.0)
      {
        TargetSign(shares[e], total);
      }
    }
  }

  lemma {:induction false} LiveCountSnoc(shares: seq<real>, share: real)
    ensures LiveCount(shares + [share]) == LiveCount(shares) + if share > 0.0 then 1 else 0
  {
    if shares == [] {
      assert [] + [share] == [share];
    } else {
      LiveCountSnoc(shares[1..], share);
      assert (shares + [share])[1..] == shares[1..] + [share];
    }
  }

  lemma {:induction false} LiveIsCounted(shares: seq<real>)
    ensures |Live(shares)| == LiveCount(shares)
  {
    if shares != [] {
      var last := |shares| - 1;
      LiveIsCounted(shares[..last]);
      LiveCountSnoc(shares[..last], shares[last]);
      assert shares == shares[..last] + [shares[last]];
    }
  }

  /** How many of the connections go to endpoint `e`. */
  function Occurs(endpoints: seq<nat>, e: nat): nat {
    if endpoints == [] then 0
    else Occurs(endpoints[..|endpoints| - 1], e) + if endpoints[|endpoints| - 1] == e then 1 else 0
  }

  function Tallied(endpoints: seq<nat>, n: nat): (counts: seq<nat>)
    ensures |counts| == n && forall e | 0 <= e < n :: counts[e] == Occurs(endpoints, e)
  {
    seq(n, e requires 0 <= e < n => Occurs(endpoints, e))
  }

  /** Whichever connections come first, any two endpoints have theirs in proportion, to within half of one of each. */
  ghost predicate Balanced(endpoints: seq<nat>) {
    forall n: nat, a: nat, b: nat | n <= |endpoints| && Occurs(endpoints, a) >= 1 && Occurs(endpoints, b) >= 1 ::
      InProportion(Occurs(endpoints[..n], a), Occurs(endpoints, a), Occurs(endpoints[..n], b), Occurs(endpoints, b))
  }

  /** `ka` of `ca` and `kb` of `cb` are in proportion to within half of one of each. */
  predicate InProportion(ka: nat, ca: nat, kb: nat, cb: nat) {
    -(ca + cb) <= 2 * (ka * cb - kb * ca) <= ca + cb
  }

  function EndpointsOf(order: seq<Slot>): (endpoints: seq<nat>)
    ensures |endpoints| == |order| && forall i | 0 <= i < |order| :: endpoints[i] == order[i].e
  {
    seq(|order|, i requires 0 <= i < |order| => order[i].e)
  }

  lemma {:induction false} OccursAsGiven(order: seq<Slot>, e: nat)
    ensures Occurs(EndpointsOf(order), e) == Given(order, e)
  {
    if order != [] {
      OccursAsGiven(order[..|order| - 1], e);
      assert EndpointsOf(order)[..|order| - 1] == EndpointsOf(order[..|order| - 1]);
    }
  }

  /** A whole order gives each endpoint its count, and nothing to anyone else. */
  lemma WholeOrder(counts: seq<nat>, order: seq<Slot>, e: nat)
    requires IsOrder(counts, order)
    ensures Occurs(EndpointsOf(order), e) == if e < |counts| then counts[e] else 0
  {
    OccursAsGiven(order, e);
    assert order[..|order|] == order;
    if e < |counts| {
      EarliestFirst(counts, order, |order|, e);
      assert forall k: nat | k < counts[e] :: Slot(k, e) in order;
      assert Given(order, e) < counts[e] ==> Slot(Given(order, e), e) in order;
    } else {
      NoneGiven(counts, order, e);
    }
  }

  lemma {:induction false} NoneGiven(counts: seq<nat>, order: seq<Slot>, e: nat)
    requires (forall i | 0 <= i < |order| :: IsSlot(counts, order[i])) && e >= |counts|
    ensures Given(order, e) == 0
  {
    if order != [] {
      NoneGiven(counts, order[..|order| - 1], e);
      assert IsSlot(counts, order[|order| - 1]);
    }
  }

  lemma OrderIsBalanced(counts: seq<nat>, order: seq<Slot>)
    requires IsOrder(counts, order)
    ensures Balanced(EndpointsOf(order))
  {
    var endpoints := EndpointsOf(order);
    forall n: nat, a: nat, b: nat | n <= |endpoints| && Occurs(endpoints, a) >= 1 && Occurs(endpoints, b) >= 1
      ensures InProportion(Occurs(endpoints[..n], a), Occurs(endpoints, a),
                           Occurs(endpoints[..n], b), Occurs(endpoints, b))
    {
      hide IsOrder, Given, Occurs;
      WholeOrder(counts, order, a);
      WholeOrder(counts, order, b);
      OccursAsGiven(order[..n], a);
      OccursAsGiven(order[..n], b);
      assert endpoints[..n] == EndpointsOf(order[..n]);
      PrefixIsBalanced(counts, order, n, a, b);
    }
  }

  /** What the assignment promises when there are enough connections for every endpoint that owns keys. */
  ghost predicate IsFairDeal(shares: seq<real>, total: nat, endpoints: seq<nat>) {
    var counts := Tallied(endpoints, |shares|);
    && |endpoints| == total && (forall i | 0 <= i < total :: endpoints[i] < |shares|)
    && (forall e | 0 <= e < |shares| :: if shares[e] > 0.0 then counts[e] >= 1 else counts[e] == 0)
    && (Close(Targets(shares, total), counts) <==> Sum(AllRaised(Targets(shares, total))) <= total)
    && Balanced(endpoints)
  }

  /** Deal by share, when there are enough connections for every endpoint that owns keys. */
  method ShareOut(shares: seq<real>, total: nat) returns (endpoints: seq<nat>)
    requires forall e | 0 <= e < |shares| :: shares[e] >= 0.0
    requires RealSum(shares) == 1.0 && 0 < LiveCount(shares) <= total
    ensures IsFairDeal(shares, total, endpoints)
  {
    TargetsSum(shares, total);
    TargetsLive(shares, total);
    var targets := Targets(shares, total);
    hide Fair, Close, AllRaised, RealSum, LiveCount, Sum, IsOrder, Targets, Balanced, Occurs;
    var allotted := Allot(targets, total);
    ghost var counts := allotted[..];
    FairMeans(targets, counts);
    var order := Deal(allotted[..]);
    endpoints := EndpointsOf(order);
    OrderIsBalanced(counts, order);
    forall e: nat ensures Occurs(endpoints, e) == if e < |counts| then counts[e] else 0 {
      WholeOrder(counts, order, e);
    }
    assert Tallied(endpoints, |shares|) == counts;
    EndpointsInRange(counts, order);
  }

  lemma EndpointsInRange(counts: seq<nat>, order: seq<Slot>)
    requires IsOrder(counts, order)
    ensures forall i | 0 <= i < |order| :: EndpointsOf(order)[i] < |counts|
  {
    forall i | 0 <= i < |order| ensures EndpointsOf(order)[i] < |counts| {
      assert IsSlot(counts, order[i]);
    }
  }

  /** What dealing from the pool in turn comes to. */
  lemma PoolInTurn(shares: seq<real>, total: nat, endpoints: seq<nat>)
    requires |endpoints| == total && forall i | 0 <= i < total :: endpoints[i] == Pool(shares)[i % |Pool(shares)|]
    ensures Live(shares) == [] ==>
              forall i | 0 <= i < total :: endpoints[i] == i % (if |shares| < 1 then 1 else |shares|)
    ensures total < |Live(shares)| ==>
              && Increasing(endpoints) && (forall e | e in endpoints :: e < |shares| && shares[e] > 0.0)
              && forall e, f | e in endpoints && 0 <= f < e && shares[f] > 0.0 :: f in endpoints
  {
    LiveInOrder(shares);
    hide Live;
    var live := Live(shares);
    if total < |live| {
      forall i | 0 <= i < total ensures endpoints[i] == live[i] {
        InOneRound(i, |live|);
      }
      hide Pool;
      assert endpoints == live[..total];
      forall e, f | e in endpoints && 0 <= f < e && shares[f] > 0.0 ensures f in endpoints {
        EarlierToo(live, total, e, f);
      }
    }
  }

  lemma InOneRound(i: nat, n: nat)
    requires i < n
    ensures i % n == i
  {
  }

  /** A prefix of an increasing list has whatever of the list is below one of its own. */
  lemma EarlierToo(live: seq<nat>, n: nat, e: nat, f: nat)
    requires Increasing(live) && n <= |live| && e in live[..n] && f in live && f < e
    ensures f in live[..n]
  {
    var i :| 0 <= i < n && live[..n][i] == e;
    var j :| 0 <= j < |live| && live[j] == f;
    assert j < i by {
      assert live[i] == e;
    }
    assert live[..n][j] == f;
  }

  /** The endpoint of each of `total` connections. */
  method KeyShareEndpoints(shares: seq<real>, total: nat) returns (endpoints: seq<nat>)
    requires forall e | 0 <= e < |shares| :: shares[e] >= 0.0
    requires Live(shares) != [] ==> RealSum(shares) == 1.0
    ensures |endpoints| == total
    // Nobody owns keys: everyone in turn.
    ensures Live(shares) == [] ==>
              forall i | 0 <= i < total :: endpoints[i] == i % (if |shares| < 1 then 1 else |shares|)
    // Too few for everyone who does: one each to the first of them.
    ensures total < |Live(shares)| ==>
              && Increasing(endpoints) && (forall e | e in endpoints :: e < |shares| && shares[e] > 0.0)
              && forall e, f | e in endpoints && 0 <= f < e && shares[f] > 0.0 :: f in endpoints
    ensures Live(shares) != [] && total >= |Live(shares)| ==> IsFairDeal(shares, total, endpoints)
  {
    hide Fair, Close, AllRaised, RealSum, LiveCount, Sum, Targets, Pool, Live, Balanced;
    var live := Live(shares);
    if live == [] || total < |live| {
      var pool := Pool(shares);
      endpoints := seq(total, i requires 0 <= i < total => pool[i % |pool|]);
      PoolInTurn(shares, total, endpoints);
    } else {
      LiveIsCounted(shares);
      endpoints := ShareOut(shares, total);
    }
  }

  lemma FairMeans(targets: seq<real>, counts: seq<nat>)
    requires Fair(targets, counts)
    ensures |counts| == |targets|
    ensures forall e | 0 <= e < |targets| :: if targets[e] > 0.0 then counts[e] >= 1 else counts[e] == 0
  {
  }
}
