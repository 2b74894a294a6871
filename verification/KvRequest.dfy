/**
 Looking up, loading and storing one KV request against a key-value server (src/kvreplay.rs).
 A request's objects are in chunk order, `ranks` of them to a chunk.
 */
module KvRequest {
  import opened Numbers

  datatype WriteRule = SetFromMiss | InsertIfAbsent

  /** What the server answers a GET. */
  datatype GetReply = Value | Nil | Failed

  datatype Outcome = Outcome(
    lookupHit: nat,
    hit: nat,
    cachedTokens: nat,
    newTokens: nat,
    fullHit: bool,
    gets: nat,
    getNil: nat,
    sets: nat)

  predicate All(flags: seq<bool>) {
    forall i | 0 <= i < |flags| :: flags[i]
  }

  // ---- The hit prefix --------------------------------------------------------------------------

  /** Chunks before the first one with a missing object. */
  function LookupPrefix(exists_: seq<bool>, ranks: nat): nat {
    var r := Min(Max(ranks, 1), |exists_|);
    if exists_ == [] || !All(exists_[..r]) then 0 else 1 + LookupPrefix(exists_[r..], ranks)
  }

  /** Chunks before the first one whose object on rank `k` is missing. */
  function RankPrefix(exists_: seq<bool>, ranks: nat, k: nat): nat {
    var r := Min(Max(ranks, 1), |exists_|);
    if exists_ == [] || (k < r && !exists_[k]) then 0 else 1 + RankPrefix(exists_[r..], ranks, k)
  }

  /** The hit prefix is the smallest of the ranks' own prefixes: a chunk counts only if every rank has it. */
  lemma {:induction false} LookupIsMinimumOverRanks(exists_: seq<bool>, ranks: nat)
    ensures forall k | 0 <= k < Max(ranks, 1) :: LookupPrefix(exists_, ranks) <= RankPrefix(exists_, ranks, k)
    ensures exists k :: 0 <= k < Max(ranks, 1) && LookupPrefix(exists_, ranks) == RankPrefix(exists_, ranks, k)
    decreases |exists_|
  {
    var r := Min(Max(ranks, 1), |exists_|);
    if exists_ == [] {
      assert RankPrefix(exists_, ranks, 0) == 0;
    } else if All(exists_[..r]) {
      LookupIsMinimumOverRanks(exists_[r..], ranks);
      var k :| 0 <= k < Max(ranks, 1) && LookupPrefix(exists_[r..], ranks) == RankPrefix(exists_[r..], ranks, k);
      assert forall j | 0 <= j < r :: exists_[..r][j] == exists_[j];
      assert RankPrefix(exists_, ranks, k) == 1 + RankPrefix(exists_[r..], ranks, k);
    } else {
      var k :| 0 <= k < r && !exists_[..r][k];
      assert RankPrefix(exists_, ranks, k) == 0;
    }
  }

  /** Objects of the hit prefix, counted chunk by chunk. */
  function PrefixLength(exists_: seq<bool>, ranks: nat): (n: nat)
    ensures n <= |exists_|
  {
    var r := Min(Max(ranks, 1), |exists_|);
    if exists_ == [] || !All(exists_[..r]) then 0 else r + PrefixLength(exists_[r..], ranks)
  }

  lemma {:induction false} PrefixIsWhole(exists_: seq<bool>, ranks: nat, chunks: nat)
    requires ranks >= 1 && |exists_| == chunks * ranks
    ensures LookupPrefix(exists_, ranks) <= chunks
    ensures PrefixLength(exists_, ranks) == LookupPrefix(exists_, ranks) * ranks
    decreases chunks
  {
    ProductOrder(0, chunks, ranks);
    if chunks > 0 {
      NextProduct(chunks - 1, ranks);
      if All(exists_[..ranks]) {
        PrefixIsWhole(exists_[ranks..], ranks, chunks - 1);
        NextProduct(LookupPrefix(exists_[ranks..], ranks), ranks);
      }
    }
  }

  /** Every object of the hit prefix exists, and one of the next chunk, if there is one, does not. */
  lemma {:induction false} PrefixObjects(exists_: seq<bool>, ranks: nat)
    requires ranks >= 1
    ensures forall i | 0 <= i < PrefixLength(exists_, ranks) :: exists_[i]
    ensures var n := PrefixLength(exists_, ranks);
            n < |exists_| ==> exists i :: n <= i < |exists_| && i < n + ranks && !exists_[i]
    decreases |exists_|
  {
    var r := Min(ranks, |exists_|);
    if exists_ != [] {
      if All(exists_[..r]) {
        var rest := exists_[r..];
        PrefixObjects(rest, ranks);
        var m := PrefixLength(rest, ranks);
        assert PrefixLength(exists_, ranks) == r + m;
        hide PrefixLength;
        forall i | 0 <= i < r + m ensures exists_[i] {
          if i < r {
            assert exists_[..r][i];
          } else {
            assert rest[i - r];
          }
        }
        hide All;
        if m < |rest| {
          var i :| m <= i < |rest| && i < m + ranks && !rest[i];
          assert !exists_[r + i];
        }
      } else {
        var i :| 0 <= i < r && !exists_[..r][i];
        assert !exists_[i];
      }
    }
  }

  // ---- Cached tokens ---------------------------------------------------------------------------

  /** Prompt tokens served by the first `hit` chunks: at least the last token is always computed. */
  function CachedTokens(hit: nat, chunkTokens: nat, input: nat): nat {
    var tokens := Min(hit * chunkTokens, U64_MAX);
    if tokens >= input then (if input > 0 then input - 1 else 0) else tokens
  }

  // ---- What a load and a store come to -----------------------------------------------------------

  /** The chunk of object `i`. */
  function ChunkOf(i: nat, ranks: nat): (chunk: nat)
    requires ranks >= 1
    ensures chunk * ranks <= i < chunk * ranks + ranks
  {
    QuotientAround(i, ranks);
    i / ranks
  }

  /** Of the replies read, every object of the first `hit` chunks was returned, and one of the next chunk was not. */
  predicate LoadedSoFar(hit: nat, lookupHit: nat, ranks: nat, read: seq<GetReply>) {
    && hit <= lookupHit
    && (forall i | 0 <= i < |read| && i < hit * ranks :: read[i].Value?)
    && (hit < lookupHit ==> exists i :: 0 <= i < |read| && hit * ranks <= i < hit * ranks + ranks && !read[i].Value?)
  }

  lemma LoadedAll(hit: nat, lookupHit: nat, ranks: nat, replies: seq<GetReply>, gets: nat)
    requires gets <= |replies| && LoadedSoFar(hit, lookupHit, ranks, replies[..gets])
    ensures hit <= lookupHit
    ensures forall i | 0 <= i < hit * ranks && i < gets :: replies[i].Value?
    ensures hit < lookupHit ==>
              exists i :: 0 <= i < gets && hit * ranks <= i < (hit + 1) * ranks && !replies[i].Value?
  {
    NextProduct(hit, ranks);
    forall i | 0 <= i < hit * ranks && i < gets ensures replies[i].Value? {
      assert replies[..gets][i].Value?;
    }
    if hit < lookupHit {
      var i :| 0 <= i < gets && hit * ranks <= i < hit * ranks + ranks && !replies[..gets][i].Value?;
      assert !replies[i].Value?;
    }
  }

  lemma NothingRead(lookupHit: nat, ranks: nat)
    ensures LoadedSoFar(lookupHit, lookupHit, ranks, [])
  {
  }

  /** A reply that is not a value cuts the prefix at its object's chunk. */
  lemma CutAtChunk(hit: nat, lookupHit: nat, ranks: nat, read: seq<GetReply>, reply: GetReply)
    requires ranks >= 1 && LoadedSoFar(hit, lookupHit, ranks, read)
    ensures var cut := if reply.Value? then hit else Min(hit, ChunkOf(|read|, ranks));
            LoadedSoFar(cut, lookupHit, ranks, read + [reply])
  {
    var i, more := |read|, read + [reply];
    var chunk := ChunkOf(i, ranks);
    ProductOrder(hit, chunk, ranks);
    ProductOrder(chunk, hit, ranks);
    assert !more[i].Value? <==> !reply.Value?;
    if hit < lookupHit && !(!reply.Value? && chunk < hit) {
      var j :| 0 <= j < |read| && hit * ranks <= j < hit * ranks + ranks && !read[j].Value?;
      assert !more[j].Value?;
    }
  }

  function Nils(replies: seq<GetReply>): nat {
    if replies == [] then 0 else Nils(replies[..|replies| - 1]) + if replies[|replies| - 1].Nil? then 1 else 0
  }

  /** The objects the store phase sets. */
  predicate ToSet(rule: WriteRule, exists_: seq<bool>, ranks: nat, i: nat)
    requires i < |exists_|
  {
    match rule
    case SetFromMiss => LookupPrefix(exists_, ranks) * ranks <= i
    case InsertIfAbsent => !exists_[i]
  }

  /** Both rules set every absent object, and insert-if-absent sets only what set-from-miss does. */
  lemma RulesCoverAbsent(exists_: seq<bool>, ranks: nat, chunks: nat, i: nat)
    requires ranks >= 1 && |exists_| == chunks * ranks && i < |exists_|
    ensures !exists_[i] ==> ToSet(SetFromMiss, exists_, ranks, i) && ToSet(InsertIfAbsent, exists_, ranks, i)
    ensures ToSet(InsertIfAbsent, exists_, ranks, i) ==> ToSet(SetFromMiss, exists_, ranks, i)
  {
    PrefixObjects(exists_, ranks);
    PrefixIsWhole(exists_, ranks, chunks);
  }

  /** Which of the keys a server holding `stored` has. */
  function Held(stored: set<nat>, keys: seq<nat>): (found: seq<bool>)
    ensures |found| == |keys| && forall i | 0 <= i < |keys| :: found[i] == (keys[i] in stored)
  {
    seq(|keys|, i requires 0 <= i < |keys| => keys[i] in stored)
  }

  /** What the server holds after storing one request's objects. */
  ghost function Kept(stored: set<nat>, rule: WriteRule, ranks: nat, keys: seq<nat>): set<nat> {
    stored + set i | 0 <= i < |keys| && ToSet(rule, Held(stored, keys), ranks, i) :: keys[i]
  }

  /**
   Store completeness: whatever the server held, after one request under either rule it holds every object
   of the request, so a replay of the same request finds every chunk and has nothing to set.
   */
  lemma SecondReplayFindsAll(stored: set<nat>, rule: WriteRule, ranks: nat, chunks: nat, keys: seq<nat>)
    requires ranks >= 1 && |keys| == chunks * ranks
    ensures var found := Held(Kept(stored, rule, ranks, keys), keys);
            && All(found)
            && LookupPrefix(found, ranks) == chunks
            && forall other: WriteRule, i: nat | i < |keys| :: !ToSet(other, found, ranks, i)
  {
    var before, after := Held(stored, keys), Kept(stored, rule, ranks, keys);
    var found := Held(after, keys);
    forall i: nat | i < |keys| ensures found[i] {
      RulesCoverAbsent(before, ranks, chunks, i);
      if keys[i] !in stored {
        assert ToSet(rule, before, ranks, i);
      }
    }
    PrefixObjects(found, ranks);
    PrefixIsWhole(found, ranks, chunks);
    assert LookupPrefix(found, ranks) * ranks == chunks * ranks;
    FactorsOut(LookupPrefix(found, ranks), chunks, ranks);
  }

  lemma FactorsOut(a: nat, b: nat, r: nat)
    requires r >= 1 && a * r == b * r
    ensures a == b
  {
    ProductOrder(a, b, r);
    ProductOrder(b, a, r);
  }

  /** The cached tokens never exceed the prompt, and the last token of a non-empty prompt is never cached. */
  lemma CachedWithinPrompt(hit: nat, chunkTokens: nat, input: nat)
    requires input <= U64_MAX
    ensures CachedTokens(hit, chunkTokens, input) <= input
    ensures input > 0 ==> CachedTokens(hit, chunkTokens, input) < input
    ensures hit * chunkTokens < input ==> CachedTokens(hit, chunkTokens, input) == hit * chunkTokens
    ensures 0 < input <= hit * chunkTokens ==> CachedTokens(hit, chunkTokens, input) == input - 1
  {
  }

  // ---- The objects -------------------------------------------------------------------------------

  /** A server that keeps what it is given. */
  class Server {
    var stored: set<nat>
    /** The keys set so far, in order, which no code reads. */
    ghost var written: seq<nat>

    constructor ()
      ensures stored == {} && written == []
    {
      stored, written := {}, [];
    }

    method Exists(key: nat) returns (found: bool)
      ensures found == (key in stored)
    {
      found := key in stored;
    }

    method Set(key: nat)
      modifies this
      ensures stored == old(stored) + {key} && written == old(written) + [key]
    {
      stored, written := stored + {key}, written + [key];
    }
  }

  /** The requests a client has sent and not had answered, oldest first. */
  class Client {
    var pending: seq<nat>
    /** The most there have been at once, which no code reads. */
    ghost var most: nat

    constructor ()
      ensures pending == [] && most == 0
    {
      pending, most := [], 0;
    }

    method Fire(userData: nat)
      modifies this
      ensures pending == old(pending) + [userData] && most == Max(old(most), |pending|)
    {
      pending := pending + [userData];
      most := Max(most, |pending|);
    }

    method Receive() returns (userData: nat)
      requires pending != []
      modifies this
      ensures userData == old(pending)[0] && pending == old(pending)[1..] && most == old(most)
    {
      userData := pending[0];
      pending := pending[1..];
    }
  }

  /** Ask for every object at once. */
  method Lookup(server: Server, keys: seq<nat>) returns (found: seq<bool>)
    ensures |found| == |keys| && forall i | 0 <= i < |keys| :: found[i] == (keys[i] in server.stored)
  {
    found := [];
    for i := 0 to |keys|
      invariant |found| == i && forall j | 0 <= j < i :: found[j] == (keys[j] in server.stored)
    {
      var f := server.Exists(keys[i]);
      found := found + [f];
    }
  }

  /** The objects asked for and not answered, when those from `done` to `next` are. */
  function Window(done: nat, next: nat): (w: seq<nat>)
    requires done <= next
    ensures |w| == next - done
    ensures forall i | 0 <= i < |w| :: w[i] == done + i
  {
    seq(next - done, i => done + i)
  }

  /**
   Get every object of the hit prefix, at most `depth` at a time; `replies[i]` is the server's
   answer for object `i`. The prefix is cut at the first chunk with an object not returned.
   */
  method Load(client: Client, lookupHit: nat, ranks: nat, depth: nat, replies: seq<GetReply>)
    returns (hit: nat, nils: nat)
    requires ranks >= 1 && depth >= 1 && client.pending == []
    requires lookupHit * ranks <= |replies|
    modifies client
    ensures client.pending == []
    ensures client.most <= Max(old(client.most), depth)
    ensures hit <= lookupHit
    ensures forall i | 0 <= i < hit * ranks && i < lookupHit * ranks :: replies[i].Value?
    ensures hit < lookupHit ==>
              exists i :: 0 <= i < lookupHit * ranks && hit * ranks <= i < (hit + 1) * ranks && !replies[i].Value?
    ensures nils == Nils(replies[..lookupHit * ranks])
  {
    var gets := lookupHit * ranks;
    hide LoadedSoFar, ChunkOf;
    var next, done := 0, 0;
    hit, nils := lookupHit, 0;
    assert LoadedSoFar(hit, lookupHit, ranks, replies[..0]) by { NothingRead(lookupHit, ranks); }
    while done < gets
      invariant 0 <= done <= next <= gets
      invariant client.pending == Window(done, next) && client.most <= Max(old(client.most), depth)
      invariant LoadedSoFar(hit, lookupHit, ranks, replies[..done])
      invariant nils == Nils(replies[..done])
    {
      while next < gets && |client.pending| < depth
        invariant 0 <= done <= next <= gets
        invariant client.pending == Window(done, next) && client.most <= Max(old(client.most), depth)
        decreases gets - next
      {
        client.Fire(next);
        next := next + 1;
      }
      var i := client.Receive();
      assert i == done;
      assert replies[..done + 1][..done] == replies[..done];
      done := done + 1;
      CutAtChunk(hit, lookupHit, ranks, replies[..i], replies[i]);
      assert replies[..i] + [replies[i]] == replies[..done];
      var chunk := ChunkOf(i, ranks);
      if !replies[i].Value? {
        if replies[i].Nil? {
          nils := nils + 1;
        }
        hit := Min(hit, chunk);
      }
      assert client.pending == Window(done, next);
    }
    LoadedAll(hit, lookupHit, ranks, replies, gets);
  }

  /** The indices the write rule sets, in order. */
  method ChooseSets(rule: WriteRule, found: seq<bool>, ranks: nat, chunks: nat) returns (sets: seq<nat>)
    requires ranks >= 1 && |found| == chunks * ranks
    ensures forall k | 0 <= k < |sets| :: sets[k] < |found|
    ensures Increasing(sets)
    ensures forall i: nat | i < |found| :: i in sets <==> ToSet(rule, found, ranks, i)
  {
    PrefixIsWhole(found, ranks, chunks);
    sets := [];
    var first := match rule
      case SetFromMiss => LookupPrefix(found, ranks) * ranks
      case InsertIfAbsent => 0;
    for i := first to |found|
      invariant forall k | 0 <= k < |sets| :: sets[k] < i
      invariant forall j, k | 0 <= j < k < |sets| :: sets[j] < sets[k]
      invariant forall j: nat | j < i :: j in sets <==> ToSet(rule, found, ranks, j)
    {
      if rule.SetFromMiss? || !found[i] {
        sets := sets + [i];
      }
    }
  }

  /** The keys at these indices, in order. */
  function Picked(keys: seq<nat>, sets: seq<nat>): (picked: seq<nat>)
    requires forall k | 0 <= k < |sets| :: sets[k] < |keys|
    ensures |picked| == |sets| && forall k | 0 <= k < |sets| :: picked[k] == keys[sets[k]]
  {
    seq(|sets|, k requires 0 <= k < |sets| => keys[sets[k]])
  }

  /** The keys a server holding `stored` does not have, in order. */
  function Missing(keys: seq<nat>, stored: set<nat>): seq<nat> {
    if keys == [] then []
    else
      var last := |keys| - 1;
      Missing(keys[..last], stored) + if keys[last] in stored then [] else [keys[last]]
  }

  /** What is set, in order: every object from the first missing chunk on, or exactly the objects that are missing. */
  function ToWrite(stored: set<nat>, rule: WriteRule, keys: seq<nat>, gets: nat): seq<nat>
    requires gets <= |keys|
  {
    match rule
    case SetFromMiss => keys[gets..]
    case InsertIfAbsent => Missing(keys, stored)
  }

  function KeysAt(keys: seq<nat>, sets: seq<nat>): (picked: set<nat>)
    requires forall k | 0 <= k < |sets| :: sets[k] < |keys|
  {
    set k | 0 <= k < |sets| :: keys[sets[k]]
  }

  /** Set the chosen objects, at most `depth` at a time. */
  method Store(server: Server, client: Client, keys: seq<nat>, sets: seq<nat>, depth: nat)
    requires depth >= 1 && client.pending == []
    requires forall k | 0 <= k < |sets| :: sets[k] < |keys|
    modifies server, client
    ensures client.pending == [] && client.most <= Max(old(client.most), depth)
    ensures server.stored == old(server.stored) + KeysAt(keys, sets)
    ensures server.written == old(server.written) + Picked(keys, sets)
  {
    var next, done := 0, 0;
    while done < |sets|
      invariant 0 <= done <= next <= |sets|
      invariant client.pending == Window(done, next) && client.most <= Max(old(client.most), depth)
      invariant server.stored == old(server.stored) + KeysAt(keys, sets[..next])
      invariant server.written == old(server.written) + Picked(keys, sets[..next])
    {
      while next < |sets| && |client.pending| < depth
        invariant 0 <= done <= next <= |sets|
        invariant client.pending == Window(done, next) && client.most <= Max(old(client.most), depth)
        invariant server.stored == old(server.stored) + KeysAt(keys, sets[..next])
        invariant server.written == old(server.written) + Picked(keys, sets[..next])
        decreases |sets| - next
      {
        MoreKeys(keys, sets[..next], sets[next]);
        assert sets[..next + 1] == sets[..next] + [sets[next]];
        server.Set(keys[sets[next]]);
        client.Fire(next);
        next := next + 1;
      }
      var _ := client.Receive();
      done := done + 1;
      assert client.pending == Window(done, next);
    }
    assert sets[..next] == sets;
  }

  lemma MoreKeys(keys: seq<nat>, sets: seq<nat>, i: nat)
    requires (forall k | 0 <= k < |sets| :: sets[k] < |keys|) && i < |keys|
    ensures forall k | 0 <= k < |sets + [i]| :: (sets + [i])[k] < |keys|
    ensures KeysAt(keys, sets + [i]) == KeysAt(keys, sets) + {keys[i]}
  {
    var more := sets + [i];
    assert more[|sets|] == i;
    forall key | key in KeysAt(keys, sets) ensures key in KeysAt(keys, more) {
      var k :| 0 <= k < |sets| && keys[sets[k]] == key;
      assert more[k] == sets[k];
    }
  }

  /** Look up, load and store one request over a connection that answers every command. */
  method RunRequest(server: Server, client: Client, rule: WriteRule, ranks: nat, depth: nat, chunkTokens: nat,
                    input: nat, chunks: nat, keys: seq<nat>, replies: seq<GetReply>) returns (o: Outcome)
    requires ranks >= 1 && depth >= 1 && input <= U64_MAX && client.pending == []
    requires |keys| == chunks * ranks && |replies| == |keys|
    modifies server, client
    ensures client.pending == [] && client.most <= Max(old(client.most), depth)
    ensures server.stored == Kept(old(server.stored), rule, ranks, keys)
    ensures o.lookupHit == LookupPrefix(Held(old(server.stored), keys), ranks)
    ensures o.gets == o.lookupHit * ranks <= |keys| && o.getNil == Nils(replies[..o.gets])
    ensures o.hit <= o.lookupHit
    ensures forall i | 0 <= i < o.hit * ranks && i < o.gets :: replies[i].Value?
    ensures o.hit < o.lookupHit ==>
              exists i :: 0 <= i < o.gets && o.hit * ranks <= i < (o.hit + 1) * ranks && !replies[i].Value?
    ensures o.cachedTokens + o.newTokens == input && (input > 0 ==> o.newTokens > 0)
    ensures o.cachedTokens == CachedTokens(o.hit, chunkTokens, input)
    ensures o.fullHit <==> 0 < input <= o.hit * chunkTokens && chunks > 0
    ensures var written := ToWrite(old(server.stored), rule, keys, o.gets);
            server.written == old(server.written) + written && o.sets == |written|
  {
    hide LookupPrefix, Held, Kept, ToSet, Nils, Missing;
    o := Outcome(0, 0, 0, input, false, 0, 0, 0);
    if chunks == 0 {
      assert CachedTokens(0, chunkTokens, input) == 0;
      assert keys == [] && replies[..0] == [];
      NoObjects(server.stored, rule, ranks);
      return;
    }
    var found := Lookup(server, keys);
    assert found == Held(old(server.stored), keys);
    PrefixIsWhole(found, ranks, chunks);
    var lookupHit := LookupPrefix(found, ranks);
    var gets := lookupHit * ranks;
    var hit, nils := Load(client, lookupHit, ranks, depth, replies);
    var sets := ChooseSets(rule, found, ranks, chunks);
    Store(server, client, keys, sets, depth);
    ChosenAreKept(server.stored, old(server.stored), rule, ranks, keys, sets);
    ChosenAreWritten(old(server.stored), rule, ranks, keys, sets);
    CachedWithinPrompt(hit, chunkTokens, input);
    var cached := CachedTokens(hit, chunkTokens, input);
    o := Outcome(lookupHit, hit, cached, input - cached, input > 0 && Min(hit * chunkTokens, U64_MAX) >= input,
                 gets, nils, |sets|);
  }

  lemma NoObjects(stored: set<nat>, rule: WriteRule, ranks: nat)
    ensures LookupPrefix(Held(stored, []), ranks) == 0 && Kept(stored, rule, ranks, []) == stored
    ensures Missing([], stored) == [] && Nils([]) == 0
  {
  }

  /** Increasing indices below `n` that include `n - 1` end with it. */
  lemma LastChosen(sets: seq<nat>, n: nat)
    requires Increasing(sets) && n >= 1 && n - 1 in sets && forall k | 0 <= k < |sets| :: sets[k] < n
    ensures sets[|sets| - 1] == n - 1
    ensures var init := sets[..|sets| - 1];
            && Increasing(init)
            && (forall k | 0 <= k < |init| :: init[k] < n - 1)
            && forall i: nat | i < n - 1 :: i in sets <==> i in init
  {
    var k :| 0 <= k < |sets| && sets[k] == n - 1;
    assert sets[k] <= sets[|sets| - 1];
    assert sets == sets[..k] + [sets[k]];
  }

  lemma FirstIsIn(sets: seq<nat>)
    requires sets != []
    ensures sets[0] in sets
  {
  }

  lemma PickedSnoc(keys: seq<nat>, sets: seq<nat>)
    requires keys != [] && sets != [] && sets[|sets| - 1] == |keys| - 1
    requires forall k | 0 <= k < |sets| - 1 :: sets[k] < |keys| - 1
    ensures Picked(keys, sets) == Picked(keys[..|keys| - 1], sets[..|sets| - 1]) + [keys[|keys| - 1]]
  {
  }

  lemma {:induction false} TailPicked(keys: seq<nat>, sets: seq<nat>, first: nat)
    requires first <= |keys| && Increasing(sets) && forall k | 0 <= k < |sets| :: sets[k] < |keys|
    requires forall i: nat | i < |keys| :: i in sets <==> first <= i
    ensures Picked(keys, sets) == keys[first..]
  {
    if first == |keys| {
      if sets != [] {
        FirstIsIn(sets);
        assert false;
      }
    } else {
      var last := |keys| - 1;
      LastChosen(sets, |keys|);
      PickedSnoc(keys, sets);
      hide Increasing, Picked;
      TailPicked(keys[..last], sets[..|sets| - 1], first);
      assert keys[first..] == keys[..last][first..] + [keys[last]];
    }
  }

  lemma {:induction false} MissingPicked(keys: seq<nat>, sets: seq<nat>, stored: set<nat>)
    requires Increasing(sets) && forall k | 0 <= k < |sets| :: sets[k] < |keys|
    requires forall i: nat | i < |keys| :: i in sets <==> keys[i] !in stored
    ensures Picked(keys, sets) == Missing(keys, stored)
  {
    if keys != [] {
      var last := |keys| - 1;
      if keys[last] in stored {
        forall k | 0 <= k < |sets| ensures sets[k] < last {
          assert sets[k] in sets;
        }
        MissingPicked(keys[..last], sets, stored);
        assert Picked(keys, sets) == Picked(keys[..last], sets);
      } else {
        LastChosen(sets, |keys|);
        PickedSnoc(keys, sets);
        hide Increasing, Picked;
        MissingPicked(keys[..last], sets[..|sets| - 1], stored);
      }
    }
  }

  /** What is set is, in order: everything from the first missing chunk on, or exactly what is missing. */
  lemma ChosenAreWritten(stored: set<nat>, rule: WriteRule, ranks: nat, keys: seq<nat>, sets: seq<nat>)
    requires LookupPrefix(Held(stored, keys), ranks) * ranks <= |keys|
    requires Increasing(sets) && forall k | 0 <= k < |sets| :: sets[k] < |keys|
    requires forall i: nat | i < |keys| :: i in sets <==> ToSet(rule, Held(stored, keys), ranks, i)
    ensures Picked(keys, sets) == ToWrite(stored, rule, keys, LookupPrefix(Held(stored, keys), ranks) * ranks)
  {
    match rule
    case SetFromMiss => TailPicked(keys, sets, LookupPrefix(Held(stored, keys), ranks) * ranks);
    case InsertIfAbsent => MissingPicked(keys, sets, stored);
  }

  lemma {:induction false} NothingMissing(keys: seq<nat>, stored: set<nat>)
    requires forall i | 0 <= i < |keys| :: keys[i] in stored
    ensures Missing(keys, stored) == []
  {
    if keys != [] {
      NothingMissing(keys[..|keys| - 1], stored);
    }
  }

  lemma ChosenAreKept(after: set<nat>, before: set<nat>, rule: WriteRule, ranks: nat, keys: seq<nat>, sets: seq<nat>)
    requires forall k | 0 <= k < |sets| :: sets[k] < |keys|
    requires forall i: nat | i < |keys| :: i in sets <==> ToSet(rule, Held(before, keys), ranks, i)
    requires after == before + KeysAt(keys, sets)
    ensures after == Kept(before, rule, ranks, keys)
  {
    forall key | key in after ensures key in Kept(before, rule, ranks, keys) {
      if key !in before {
        var k :| 0 <= k < |sets| && keys[sets[k]] == key;
        assert sets[k] in sets;
      }
    }
    forall key | key in Kept(before, rule, ranks, keys) ensures key in after {
      if key !in before {
        var i :| 0 <= i < |keys| && ToSet(rule, Held(before, keys), ranks, i) && keys[i] == key;
        assert i in sets;
        var k :| 0 <= k < |sets| && sets[k] == i;
        assert keys[sets[k]] in KeysAt(keys, sets);
      }
    }
  }

  /** A server that keeps what it is given answers every GET for an object it holds with its value. */
  predicate Honest(stored: set<nat>, keys: seq<nat>, replies: seq<GetReply>) {
    |replies| == |keys| && forall i | 0 <= i < |keys| && keys[i] in stored :: replies[i].Value?
  }

  /** Replaying a request twice against such a server: the second time every chunk hits and no SET is sent. */
  method ReplayTwice(server: Server, client: Client, rule: WriteRule, ranks: nat, depth: nat, chunkTokens: nat,
                     input: nat, chunks: nat, keys: seq<nat>, replies: seq<GetReply>, again: seq<GetReply>)
    returns (first: Outcome, second: Outcome)
    requires ranks >= 1 && depth >= 1 && input <= U64_MAX && client.pending == []
    requires |keys| == chunks * ranks
    requires Honest(server.stored, keys, replies)
    requires Honest(Kept(server.stored, rule, ranks, keys), keys, again)
    modifies server, client
    ensures first.hit == first.lookupHit
    ensures second.hit == second.lookupHit == chunks && second.sets == 0 && second.getNil == 0
  {
    ghost var before := server.stored;
    PrefixObjects(Held(before, keys), ranks);
    PrefixIsWhole(Held(before, keys), ranks, chunks);
    first := RunRequest(server, client, rule, ranks, depth, chunkTokens, input, chunks, keys, replies);
    SecondReplayFindsAll(before, rule, ranks, chunks, keys);
    NothingMissing(keys, server.stored);
    second := RunRequest(server, client, rule, ranks, depth, chunkTokens, input, chunks, keys, again);
    NoneMissing(again[..second.gets]);
  }

  lemma {:induction false} NoneMissing(replies: seq<GetReply>)
    requires forall i | 0 <= i < |replies| :: replies[i].Value?
    ensures Nils(replies) == 0
  {
    if replies != [] {
      NoneMissing(replies[..|replies| - 1]);
    }
  }
}
