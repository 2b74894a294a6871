/**
 Counting the items of queues that satisfy a property. The ledgers of this project say that
 an item is in exactly one place by counting it over all the places there are.
 */
module Ledgers {
  ghost function Tally<T(!new)>(xs: seq<T>, p: T -> bool): nat {
    if xs == [] then 0 else (if p(xs[0]) then 1 else 0) + Tally(xs[1..], p)
  }

  ghost function TallyAll<T(!new)>(queues: seq<seq<T>>, p: T -> bool): nat {
    if queues == [] then 0 else Tally(queues[0], p) + TallyAll(queues[1..], p)
  }

  lemma {:induction false} TallyConcat<T(!new)>(a: seq<T>, b: seq<T>, p: T -> bool)
    ensures Tally(a + b, p) == Tally(a, p) + Tally(b, p)
  {
    if a == [] {
      assert a + b == b;
    } else {
      TallyConcat(a[1..], b, p);
      assert (a + b)[1..] == a[1..] + b;
    }
  }

  /** Splitting a queue anywhere splits its tally. */
  lemma TallySplit<T(!new)>(xs: seq<T>, k: nat, p: T -> bool)
    requires k <= |xs|
    ensures Tally(xs, p) == Tally(xs[..k], p) + Tally(xs[k..], p)
  {
    TallyConcat(xs[..k], xs[k..], p);
    assert xs[..k] + xs[k..] == xs;
  }

  lemma TallyOne<T(!new)>(x: T, p: T -> bool)
    ensures Tally([x], p) == if p(x) then 1 else 0
  {
  }

  lemma {:induction false} TallyZero<T(!new)>(xs: seq<T>, p: T -> bool)
    ensures Tally(xs, p) == 0 <==> forall x | x in xs :: !p(x)
  {
    if xs != [] {
      TallyZero(xs[1..], p);
      assert xs == [xs[0]] + xs[1..];
    }
  }

  lemma {:induction false} TallyUpdate<T(!new)>(queues: seq<seq<T>>, i: nat, q: seq<T>, p: T -> bool)
    requires i < |queues|
    ensures TallyAll(queues[i := q], p) == TallyAll(queues, p) - Tally(queues[i], p) + Tally(q, p)
  {
    if i == 0 {
      assert queues[i := q][1..] == queues[1..];
    } else {
      TallyUpdate(queues[1..], i - 1, q, p);
      assert queues[i := q][1..] == queues[1..][i - 1 := q];
    }
  }

  lemma {:induction false} TallyAppend<T(!new)>(queues: seq<seq<T>>, q: seq<T>, p: T -> bool)
    ensures TallyAll(queues + [q], p) == TallyAll(queues, p) + Tally(q, p)
  {
    if queues == [] {
      assert ([] + [q])[1..] == [];
    } else {
      TallyAppend(queues[1..], q, p);
      assert (queues + [q])[1..] == queues[1..] + [q];
    }
  }

  lemma {:induction false} TallyNone<T(!new)>(queues: seq<seq<T>>, p: T -> bool)
    requires forall i | 0 <= i < |queues| :: Tally(queues[i], p) == 0
    ensures TallyAll(queues, p) == 0
  {
    if queues != [] {
      TallyNone(queues[1..], p);
    }
  }

  // ---- Counting distinct names ---------------------------------------------------------

  ghost function Is(n: nat): nat -> bool {
    (m: nat) => m == n
  }

  /** Distinct names, all of them in a set no larger than their number, are the whole set. */
  lemma {:induction false} NamesFill(names: seq<nat>, all: set<nat>)
    requires forall n | n in names :: n in all
    requires forall n: nat :: Tally(names, Is(n)) <= 1
    ensures |names| <= |all|
    ensures |names| == |all| ==> forall n | n in all :: Tally(names, Is(n)) == 1
  {
    if names != [] {
      var first, rest := names[0], names[1..];
      assert names == [first] + rest;
      forall n: nat ensures Tally(rest, Is(n)) <= 1 {
        assert Tally(names, Is(n)) <= 1;
      }
      assert Tally(names, Is(first)) == 1 + Tally(rest, Is(first));
      TallyZero(rest, Is(first));
      assert Is(first)(first);
      assert first !in rest;
      NamesFill(rest, all - {first});
      assert |all - {first}| == |all| - 1;
      if |names| == |all| {
        forall n | n in all ensures Tally(names, Is(n)) == 1 {
          if n != first {
            assert Tally(rest, Is(n)) == 1;
          }
        }
      }
    }
  }

  /** A list that names everything in a set is at least as long as the set is large. */
  lemma {:induction false} NamesCover(names: seq<nat>, all: set<nat>)
    requires forall n | n in all :: n in names
    ensures |names| >= |all|
  {
    if names != [] {
      assert names == [names[0]] + names[1..];
      NamesCover(names[1..], all - {names[0]});
      assert all <= all - {names[0]} + {names[0]};
      assert |all| <= |all - {names[0]}| + 1;
    } else {
      assert all == {};
    }
  }
}
