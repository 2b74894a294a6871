/**
 The newest-is-hottest sampler over a keyspace that grows by batches (src/keydist.rs), and
 what it draws from while the append stream runs.
 */
module Recency {
  import opened KeyLedger
  import opened KeyQueues
  import opened Ledgers
  import opened Numbers

  /** A product as a machine word holds it: one that is not saturated wraps around. */
  function Wrapped(x: nat): (r: nat)
    ensures x < WORD ==> r == x
  {
    x % WORD
  }

  // ---- Generation weights ------------------------------------------------------------------------

  /** The weight of generation `a`, decay to the power `a`. */
  function Weight(decay: real, a: nat): (w: real)
    requires 0.0 < decay <= 1.0
    ensures 0.0 < w <= 1.0
  {
    if a == 0 then 1.0 else Scaled(Weight(decay, a - 1), decay)
  }

  function Scaled(w: real, decay: real): (r: real)
    requires 0.0 < decay <= 1.0 && 0.0 < w <= 1.0
    ensures 0.0 < r <= w
  {
    w * decay
  }

  function Total(decay: real, n: nat): (t: real)
    requires 0.0 < decay <= 1.0
    ensures t >= 0.0 && (n > 0 ==> t > 0.0)
  {
    if n == 0 then 0.0 else Total(decay, n - 1) + Weight(decay, n - 1)
  }

  lemma {:induction false} TotalGrows(decay: real, m: nat, n: nat)
    requires 0.0 < decay <= 1.0 && m <= n
    ensures Total(decay, m) <= Total(decay, n)
    ensures m < n ==> Total(decay, m) < Total(decay, n)
    decreases n
  {
    if m < n {
      TotalGrows(decay, m, n - 1);
    }
  }

  /** `part` of a positive `whole`. */
  function Ratio(part: real, whole: real): real
    requires whole > 0.0
  {
    part / whole
  }

  lemma RatioOrder(a: real, b: real, c: real)
    requires c > 0.0
    ensures a < b ==> Ratio(a, c) < Ratio(b, c)
    ensures a <= b ==> Ratio(a, c) <= Ratio(b, c)
  {
  }

  lemma RatioGap(a: real, b: real, c: real)
    requires c > 0.0
    ensures Ratio(b - a, c) == Ratio(b, c) - Ratio(a, c)
    ensures Ratio(0.0, c) == 0.0 && Ratio(c, c) == 1.0
  {
  }

  /** A cumulative distribution: positive, increasing, ending at 1. */
  predicate IsCdf(cdf: seq<real>) {
    && cdf != [] && cdf[0] > 0.0 && cdf[|cdf| - 1] == 1.0
    && forall i, j | 0 <= i < j < |cdf| :: cdf[i] < cdf[j]
  }

  /** How many leading entries are at most `u`. */
  function PartitionPoint(cdf: seq<real>, u: real): (k: nat)
    ensures k <= |cdf|
    ensures forall i | 0 <= i < k :: cdf[i] <= u
    ensures k < |cdf| ==> cdf[k] > u
  {
    if cdf == [] || cdf[0] > u then 0 else 1 + PartitionPoint(cdf[1..], u)
  }

  /** The share of draws that fall to generation `a`. */
  function Share(cdf: seq<real>, a: nat): real
    requires a < |cdf|
  {
    cdf[a] - if a == 0 then 0.0 else cdf[a - 1]
  }

  // ---- The windows ---------------------------------------------------------------------------------

  function WindowLo(head: nat, batch: nat, a: nat): nat { Monus(head, (a + 1) * batch) }

  function WindowHi(head: nat, batch: nat, a: nat): nat { Monus(head, a * batch) }

  function BodyHi(head: nat, batch: nat, generations: nat): nat { Monus(head, generations * batch) }

  /** How many batches ago `id` was written. */
  function Generation(head: nat, batch: nat, id: nat): nat
    requires batch >= 1 && id < head
  {
    (head - 1 - id) / batch
  }

  lemma QuotientBounds(x: nat, batch: nat, a: nat)
    requires batch >= 1
    ensures a * batch <= x < (a + 1) * batch <==> x / batch == a
    ensures a * batch <= x <==> a <= x / batch
  {
    var q := x / batch;
    QuotientAround(x, batch);
    NextProduct(a, batch);
    ProductOrder(a, q, batch);
    ProductOrder(q, a, batch);
  }

  /** The windows tile the hot part exactly: an id is in the window of its own generation and no other. */
  lemma WindowsTile(head: nat, batch: nat, id: nat, a: nat)
    requires batch >= 1 && id < head
    ensures WindowLo(head, batch, a) <= id < WindowHi(head, batch, a) <==> a == Generation(head, batch, id)
  {
    QuotientBounds(head - 1 - id, batch, a);
  }

  /** And the body is what the windows leave over: the ids older than every hot generation. */
  lemma BodyIsTheRest(head: nat, batch: nat, generations: nat, id: nat)
    requires batch >= 1 && id < head
    ensures id < BodyHi(head, batch, generations) <==> Generation(head, batch, id) >= generations
    ensures id < BodyHi(head, batch, generations) <==>
            forall a: nat | a < generations :: !(WindowLo(head, batch, a) <= id < WindowHi(head, batch, a))
  {
    var g := Generation(head, batch, id);
    QuotientBounds(head - 1 - id, batch, generations);
    forall a: nat | a < generations
      ensures WindowLo(head, batch, a) <= id < WindowHi(head, batch, a) <==> a == g
    {
      WindowsTile(head, batch, id, a);
    }
    WindowsTile(head, batch, id, g);
  }

  // ---- The sampler ---------------------------------------------------------------------------------

  /** A uniform integer of `lo..hi`, from a raw draw; an empty range is an error. */
  function RandomRange(lo: nat, hi: nat, draw: nat): (r: nat)
    requires lo < hi
    ensures lo <= r < hi
  {
    lo + draw % (hi - lo)
  }

  function HotDraw(head: nat, batch: nat, generations: nat, a: nat, draw: nat): (id: nat)
    requires head > 0 && a < generations
    ensures id < head
    ensures generations * batch < WORD && WindowLo(head, batch, a) < WindowHi(head, batch, a) ==>
              WindowLo(head, batch, a) <= id < WindowHi(head, batch, a)
  {
    InsideHotWindow(a, generations, batch);
    var hi := Monus(head, Wrapped(a * batch));
    var lo := Monus(head, Wrapped((a + 1) * batch));
    if hi > lo then RandomRange(lo, hi, draw) else RandomRange(0, head, draw)
  }

  function BodyDraw(head: nat, batch: nat, generations: nat, draw: nat): (id: nat)
    requires head > 0
    ensures id < head
    ensures generations * batch < WORD && BodyHi(head, batch, generations) > 0 ==> id < BodyHi(head, batch, generations)
  {
    var hotSpan := if generations * batch < WORD then generations * batch else WORD - 1;
    var bodyHi := Monus(head, hotSpan);
    if bodyHi == 0 then RandomRange(0, head, draw) else RandomRange(0, bodyHi, draw)
  }

  class Sampler {
    var head: nat
    const batch: nat
    const generations: nat
    const hotFraction: real
    const cdf: seq<real>

    ghost predicate Valid() {
      batch >= 1 && generations >= 1 && IsCdf(cdf) && |cdf| == generations
    }

    constructor (initialHead: nat, batch: nat, generations: nat, decay: real, hotFraction: real)
      requires batch >= 1 && generations >= 1 && 0.0 < decay <= 1.0 && 0.0 <= hotFraction <= 1.0
      ensures Valid() && head == initialHead
      ensures this.batch == batch && this.generations == generations && this.hotFraction == hotFraction
      // Every generation's share is proportional to its weight, so a newer one is never colder.
      ensures forall a | 0 <= a < generations :: Share(cdf, a) == Ratio(Weight(decay, a), Total(decay, generations))
      ensures forall a | 0 < a < generations :: Share(cdf, a) <= Share(cdf, a - 1)
    {
      var sums: seq<real> := [];
      var acc, w := 0.0, 1.0;
      for i := 0 to generations
        invariant acc == Total(decay, i) && w == Weight(decay, i)
        invariant |sums| == i && forall k | 0 <= k < i :: sums[k] == Total(decay, k + 1)
      {
        acc := acc + w;
        sums := sums + [acc];
        w := w * decay;
      }
      var normalised: seq<real> := [];
      for i := 0 to generations
        invariant |normalised| == i && forall k | 0 <= k < i :: normalised[k] == Ratio(Total(decay, k + 1), acc)
      {
        normalised := normalised + [sums[i] / acc];
      }
      NormalisedIsCdf(decay, normalised);
      this.head := initialHead;
      this.batch := batch;
      this.generations := generations;
      this.hotFraction := hotFraction;
      this.cdf := normalised;
    }

    /** Publish a committed batch. */
    method StoreHead(next: nat)
      modifies this`head
      ensures head == next
    {
      head := next;
    }

    /** A generation by age weight: exactly the `u` of its own share of the unit interval draw it. */
    function SampleGeneration(u: real): (a: nat)
      requires Valid() && 0.0 <= u < 1.0
      ensures a < generations && u < cdf[a] && (a > 0 ==> cdf[a - 1] <= u)
    {
      var p := PartitionPoint(cdf, u);
      if p < generations - 1 then p else generations - 1
    }

    /** A key id for a read: `u` chooses hot or body, `v` the generation, `draw` the id. */
    function Sample(u: real, v: real, draw: nat): (id: nat)
      requires Valid() && 0.0 <= u < 1.0 && 0.0 <= v < 1.0
      reads this`head
      ensures head == 0 ==> id == 0
      ensures head > 0 ==> id < head
      // Unless the hot window is wider than a word, a hot read lands in the generation it drew,
      // clipped to the keyspace.
      ensures u < hotFraction && generations * batch < WORD ==>
                var a := SampleGeneration(v);
                WindowLo(head, batch, a) < WindowHi(head, batch, a) ==>
                  WindowLo(head, batch, a) <= id < WindowHi(head, batch, a)
      // And any other read lands in the body, once there is one.
      ensures u >= hotFraction && generations * batch < WORD && BodyHi(head, batch, generations) > 0 ==>
                id < BodyHi(head, batch, generations)
    {
      if head == 0 then 0
      else if u < hotFraction then HotDraw(head, batch, generations, SampleGeneration(v), draw)
      else BodyDraw(head, batch, generations, draw)
    }
  }

  lemma InsideHotWindow(a: nat, generations: nat, batch: nat)
    requires a < generations
    ensures a * batch <= (a + 1) * batch <= generations * batch
  {
    ProductOrder(a, a + 1, batch);
    ProductOrder(a + 1, generations, batch);
  }

  lemma NormalisedIsCdf(decay: real, cdf: seq<real>)
    requires 0.0 < decay <= 1.0 && |cdf| >= 1
    requires forall k | 0 <= k < |cdf| :: cdf[k] == Ratio(Total(decay, k + 1), Total(decay, |cdf|))
    ensures IsCdf(cdf)
    ensures forall a | 0 <= a < |cdf| :: Share(cdf, a) == Ratio(Weight(decay, a), Total(decay, |cdf|))
    ensures forall a | 0 < a < |cdf| :: Share(cdf, a) <= Share(cdf, a - 1)
  {
    hide Ratio, Weight;
    var t := Total(decay, |cdf|);
    forall i, j | 0 <= i < j < |cdf| ensures cdf[i] < cdf[j] {
      TotalGrows(decay, i + 1, j + 1);
      RatioOrder(Total(decay, i + 1), Total(decay, j + 1), t);
    }
    RatioOrder(0.0, Total(decay, 1), t);
    RatioGap(0.0, t, t);
    forall a | 0 <= a < |cdf| ensures Share(cdf, a) == Ratio(Weight(decay, a), t) {
      RatioGap(Total(decay, a), Total(decay, a + 1), t);
      assert Total(decay, a + 1) - Total(decay, a) == Weight(decay, a);
    }
    forall a | 0 < a < |cdf| ensures Share(cdf, a) <= Share(cdf, a - 1) {
      WeightsFall(decay, a);
      RatioOrder(Weight(decay, a), Weight(decay, a - 1), t);
    }
  }

  lemma WeightsFall(decay: real, a: nat)
    requires 0.0 < decay <= 1.0 && a > 0
    ensures Weight(decay, a) <= Weight(decay, a - 1)
  {
  }

  // ---- Readers beside the append stream -----------------------------------------------------------

  /**
   A reader that samples with the head the append stream has published, at any moment of any run, targets an id
   that was prefilled or whose SET was acknowledged.
   */
  lemma ReadersTargetWrittenKeys(n: nat, endpoints: seq<nat>, first: nat, events: seq<Event>,
                                 sampler: Sampler, u: real, v: real, draw: nat)
    requires InRange(endpoints, n) && sampler.Valid() && 0.0 <= u < 1.0 && 0.0 <= v < 1.0
    requires Legal(Append(n, endpoints, first, sampler.batch), events)
    requires sampler.head == After(Append(n, endpoints, first, sampler.batch), events).head
    requires sampler.head > 0
    ensures var s := After(Append(n, endpoints, first, sampler.batch), events);
            var id := sampler.Sample(u, v, draw);
            id < first || (Tally(s.acked, Is(id)) == 1 && Waiting(s, id) == 0)
  {
    HeadIsWritten(n, endpoints, first, sampler.batch, events);
  }
}
