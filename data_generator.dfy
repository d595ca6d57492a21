/** The document generator: `count` single-child chains of a given depth,
    every second one carrying the sentinel that reads and writes select.

    Randomness is supplied by the caller. `word(l)` is the lorem word drawn at
    level `l` of a document (the `field` of a non-leaf level, or the
    `read_target` of a non-targetable leaf); `sample(k, n)` is the `k`-th
    alphanumeric chunk drawn, asked for `n` characters. */
module DataGenerator {
  import opened Wrappers
  import opened Text
  import opened Json

  /** Length of every leaf's `write_target`. */
  const WriteTargetByteSize: nat := 16

  /** The `read_target` of a targetable document. */
  const Sentinel: string := "read_target"

  /** Largest chunk `generate_fixed_size_word` draws at once. */
  const ChunkLimit: nat := 32

  /** What `Alphanumeric.sample_string` guarantees: as many characters as asked
      for, all ASCII letters and digits. */
  ghost predicate IsAlphanumericSampler(sample: (nat, nat) -> string) {
    forall k, n :: |sample(k, n)| == n && AllAlphanumeric(sample(k, n))
  }

  function Min(a: nat, b: nat): nat {
    if a < b then a else b
  }

  /** `remaining` more characters, drawn in chunks of at most `ChunkLimit`
      starting with chunk number `k`. */
  function ChunksFrom(remaining: nat, k: nat, sample: (nat, nat) -> string): string
    decreases remaining
  {
    if remaining == 0 then ""
    else
      var size := Min(remaining, ChunkLimit);
      sample(k, size) + ChunksFrom(remaining - size, k + 1, sample)
  }

  /** `remaining` characters drawn from an alphanumeric sampler are exactly
      `remaining` letters and digits. */
  lemma {:induction false} ChunksFromSize(remaining: nat, k: nat, sample: (nat, nat) -> string)
    ensures IsAlphanumericSampler(sample) ==>
      |ChunksFrom(remaining, k, sample)| == remaining && AllAlphanumeric(ChunksFrom(remaining, k, sample))
    decreases remaining
  {
    if remaining > 0 && IsAlphanumericSampler(sample) {
      var size := Min(remaining, ChunkLimit);
      ChunksFromSize(remaining - size, k + 1, sample);
      var head, tail := sample(k, size), ChunksFrom(remaining - size, k + 1, sample);
      assert ChunksFrom(remaining, k, sample) == head + tail;
      assert forall i :: 0 <= i < |head + tail| ==>
        (head + tail)[i] == if i < |head| then head[i] else tail[i - |head|];
    }
  }

  /** The word `generate_fixed_size_word(byte_size)` returns: drawn from an
      alphanumeric sampler, it has exactly the requested length and only
      letters and digits. */
  function FixedSizeWord(byteSize: nat, sample: (nat, nat) -> string): (r: string)
    ensures IsAlphanumericSampler(sample) ==> |r| == byteSize && AllAlphanumeric(r)
  {
    ChunksFromSize(byteSize, 0, sample);
    ChunksFrom(byteSize, 0, sample)
  }

  /** `String::truncate`: keeps at most the first `n` characters. */
  function Truncate(s: string, n: nat): string {
    if n < |s| then s[..n] else s
  }

  /** generate_fixed_size_word: appends chunks of `min(remaining, 32)` until the
      word is long enough. No chunk overshoots, so the final truncation never
      shortens anything. */
  method GenerateFixedSizeWord(byteSize: nat, sample: (nat, nat) -> string) returns (result: string)
    requires IsAlphanumericSampler(sample)
    ensures result == FixedSizeWord(byteSize, sample)
    ensures |result| == byteSize && AllAlphanumeric(result)
  {
    result := "";
    var k := 0;
    while |result| < byteSize
      invariant |result| <= byteSize
      invariant result + ChunksFrom(byteSize - |result|, k, sample) == FixedSizeWord(byteSize, sample)
      decreases byteSize - |result|
    {
      var remaining := byteSize - |result|;
      var chunkSize := Min(remaining, ChunkLimit);
      var chunk := sample(k, chunkSize);
      assert ChunksFrom(remaining, k, sample) == chunk + ChunksFrom(remaining - chunkSize, k + 1, sample);
      result := result + chunk;
      k := k + 1;
    }
    if |result| > byteSize {
      result := Truncate(result, byteSize);
    }
  }

  /** build_level: the level `current` of a chain that ends at level `max`.
      The leaf holds its `read_target` and `write_target`; every other level
      holds its own word as `field`, with a `children` array above the leaf
      and alone below it (depth 0). Members are listed in the order the code
      inserts them; the contract looks them up by key, so it holds whichever
      map order serde_json is built with. */
  function BuildLevel(current: nat, max: nat, useSpecific: bool,
                      word: nat -> string, sample: (nat, nat) -> string): (r: Value)
    ensures r.Obj? && |r.members| == (if current <= max then 2 else 1)
    ensures current == max ==> r.members[0].key == "read_target" && r.members[1].key == "write_target"
    ensures current != max ==> Member("field", Str(word(current))) in r.members
    decreases max - current
  {
    if current == max then
      Obj([Member("read_target", Str(if useSpecific then Sentinel else word(current))),
           Member("write_target", Str(FixedSizeWord(WriteTargetByteSize, sample)))])
    else if current < max then
      Obj([Member("field", Str(word(current))),
           Member("children", Arr([BuildLevel(current + 1, max, useSpecific, word, sample)]))])
    else
      Obj([Member("field", Str(word(current)))])
  }

  /** The `index`-th document of a batch; even indices are targetable. Each
      document draws from its own part of the random sources. */
  function Document(depth: u8, index: nat, word: (nat, nat) -> string,
                    sample: (nat, nat, nat) -> string): Value
  {
    BuildLevel(1, depth as nat, index % 2 == 0, (l: nat) => word(index, l), (k: nat, n: nat) => sample(index, k, n))
  }

  /** generate_nested_data: the JSON array of `count` documents. */
  function GenerateNestedData(depth: u8, count: nat, word: (nat, nat) -> string,
                              sample: (nat, nat, nat) -> string): (r: Value)
    ensures r.Arr? && |r.items| == count
    ensures forall i :: 0 <= i < count ==> r.items[i] == Document(depth, i, word, sample)
  {
    Arr(seq(count, i requires 0 <= i < count => Document(depth, i, word, sample)))
  }

  ghost predicate IsAlphanumericSampler3(sample: (nat, nat, nat) -> string) {
    forall d, k, n :: |sample(d, k, n)| == n && AllAlphanumeric(sample(d, k, n))
  }

  /** The path segments from a root down `steps` levels of a chain. */
  function ChainSteps(steps: nat): seq<string> {
    if steps == 0 then [] else ["children", "0"] + ChainSteps(steps - 1)
  }

  /** The steps are `children` and `0`, in turn. */
  lemma {:induction false} ChainStepsWords(n: nat)
    ensures |ChainSteps(n)| == 2 * n
    ensures forall i :: 0 <= i < |ChainSteps(n)| ==> ChainSteps(n)[i] == "children" || ChainSteps(n)[i] == "0"
  {
    if n > 0 { ChainStepsWords(n - 1); }
  }

  lemma StepPrefix(sep: char, y: string)
    ensures ("children" + [sep] + "0" + [sep]) + y == "children" + [sep] + ("0" + [sep] + y)
  {
  }

  /** `n` textual steps followed by `last` join the chain steps and `last`
      with the separator. */
  lemma {:induction false} StepsJoin(sep: char, n: nat, last: string)
    ensures Repeat("children" + [sep] + "0" + [sep], n) + last == JoinWith(ChainSteps(n) + [last], sep)
  {
    var step := "children" + [sep] + "0" + [sep];
    if n == 0 {
      assert ChainSteps(n) + [last] == [last];
    } else {
      var parts := ChainSteps(n) + [last];
      var y := Repeat(step, n - 1) + last;
      StepsJoin(sep, n - 1, last);
      assert parts[1..][1..] == ChainSteps(n - 1) + [last];
      assert parts[0] == "children" && parts[1..][0] == "0";
      assert JoinWith(parts, sep) == "children" + [sep] + JoinWith(parts[1..], sep);
      assert JoinWith(parts[1..], sep) == "0" + [sep] + y;
      assert Repeat(step, n) + last == step + y;
      StepPrefix(sep, y);
    }
  }

  /** Splitting `n` textual steps followed by `last` at the separator gives
      back the chain steps and `last`, when no segment holds the separator. */
  lemma StepsSplit(sep: char, n: nat, last: string)
    requires sep !in "children" && sep != '0' && sep !in last
    ensures Split(Repeat("children" + [sep] + "0" + [sep], n) + last, sep) == ChainSteps(n) + [last]
    ensures |ChainSteps(n) + [last]| == 2 * n + 1
  {
    var parts := ChainSteps(n) + [last];
    StepsJoin(sep, n, last);
    ChainStepsWords(n);
    assert forall i :: 0 <= i < |parts| ==> parts[i] == "children" || parts[i] == "0" || parts[i] == last;
    SplitJoin(parts, sep);
  }

  /** A leaf holds exactly `read_target` and a 16-character alphanumeric
      `write_target`. */
  predicate IsLeaf(j: Value) {
    && j.Obj? && |j.members| == 2
    && var read, write := Get(j.members, "read_target"), Get(j.members, "write_target");
    && read.Some? && read.value.Str?
    && write.Some? && write.value.Str?
    && |write.value.s| == WriteTargetByteSize
    && AllAlphanumeric(write.value.s)
  }

  /** A chain of `levels` levels: every level above the leaf holds a word in
      `field` and a `children` array of exactly one element. */
  predicate IsChain(j: Value, levels: nat)
    decreases levels
  {
    if levels <= 1 then levels == 1 && IsLeaf(j)
    else
      && j.Obj? && |j.members| == 2
      && var field, children := Get(j.members, "field"), Get(j.members, "children");
      && field.Some? && field.value.Str?
      && children.Some? && children.value.Arr? && |children.value.items| == 1
      && IsChain(children.value.items[0], levels - 1)
  }

  /** The value at the end of a chain's path to the leaf field `target`. */
  function LeafField(doc: Value, depth: nat, target: string): Option<Value>
    requires depth >= 1
  {
    Navigate(doc, ChainSteps(depth - 1) + [target])
  }

  /** A document that read queries select: its leaf holds the sentinel. */
  predicate IsTargetable(doc: Value, depth: nat)
    requires depth >= 1
  {
    LeafField(doc, depth, "read_target") == Some(Str(Sentinel))
  }

  lemma ParseZero()
    ensures Parse("0") == Some(0)
  {
    assert DigitsValue("0") == 0;
  }

  /** One step down a chain level: `children`, then index 0. */
  lemma NavigateStep(child: Value, w: string, rest: seq<string>)
    ensures Navigate(Obj([Member("field", Str(w)), Member("children", Arr([child]))]), ChainSteps(1) + rest)
         == Navigate(child, rest)
  {
    ParseZero();
    var path := ChainSteps(1) + rest;
    assert path[0] == "children";
    assert path[1..][0] == "0";
    assert path[1..][1..] == rest;
    var members := [Member("field", Str(w)), Member("children", Arr([child]))];
    assert members[1..] == [Member("children", Arr([child]))];
    assert members[0].key != "children";
    assert Get(members, "children") == Some(Arr([child]));
  }

  /** build_level from `current` to `max` is a chain of `max - current + 1`
      levels. */
  lemma {:induction false} BuildLevelIsChain(current: nat, max: nat, useSpecific: bool,
                                             word: nat -> string, sample: (nat, nat) -> string)
    requires current <= max
    requires IsAlphanumericSampler(sample)
    ensures IsChain(BuildLevel(current, max, useSpecific, word, sample), max - current + 1)
    decreases max - current
  {
    if current < max {
      BuildLevelIsChain(current + 1, max, useSpecific, word, sample);
    }
  }

  /** Following the chain from level `current` reaches the leaf, which holds
      the sentinel when asked to, the level-`max` word otherwise, and the drawn
      write target. */
  lemma {:induction false} BuildLevelLeaf(current: nat, max: nat, useSpecific: bool,
                                          word: nat -> string, sample: (nat, nat) -> string)
    requires current <= max
    ensures var doc := BuildLevel(current, max, useSpecific, word, sample);
      && Navigate(doc, ChainSteps(max - current) + ["read_target"])
         == Some(Str(if useSpecific then Sentinel else word(max)))
      && Navigate(doc, ChainSteps(max - current) + ["write_target"])
         == Some(Str(FixedSizeWord(WriteTargetByteSize, sample)))
    decreases max - current
  {
    if current == max {
      var doc := BuildLevel(current, max, useSpecific, word, sample);
      assert ChainSteps(0) + ["read_target"] == ["read_target"];
      assert ChainSteps(0) + ["write_target"] == ["write_target"];
      assert Get(doc.members[1..], "write_target") == Some(doc.members[1].value);
    } else {
      var child := BuildLevel(current + 1, max, useSpecific, word, sample);
      BuildLevelLeaf(current + 1, max, useSpecific, word, sample);
      var steps := ChainSteps(max - current - 1);
      assert ChainSteps(max - current) == ChainSteps(1) + steps;
      NavigateStep(child, word(current), steps + ["read_target"]);
      NavigateStep(child, word(current), steps + ["write_target"]);
      assert ChainSteps(1) + steps + ["read_target"] == ChainSteps(1) + (steps + ["read_target"]);
      assert ChainSteps(1) + steps + ["write_target"] == ChainSteps(1) + (steps + ["write_target"]);
    }
  }

  /** With depth 0 the chain never reaches a leaf: build_level returns a bare
      `field` object. */
  lemma DepthZeroDocuments(count: nat, word: (nat, nat) -> string, sample: (nat, nat, nat) -> string)
    ensures forall i :: 0 <= i < count ==>
      GenerateNestedData(0, count, word, sample).items[i] == Obj([Member("field", Str(word(i, 1)))])
  {
  }

  /** Every generated document is a chain of exactly `depth` levels with a
      16-character write target; the even ones hold the sentinel, the odd ones
      the word drawn for their leaf. */
  lemma DocumentShape(depth: u8, count: nat, i: nat, word: (nat, nat) -> string,
                      sample: (nat, nat, nat) -> string)
    requires depth >= 1 && i < count
    requires IsAlphanumericSampler3(sample)
    ensures var doc := GenerateNestedData(depth, count, word, sample).items[i];
      && IsChain(doc, depth as nat)
      && LeafField(doc, depth as nat, "read_target")
         == Some(Str(if i % 2 == 0 then Sentinel else word(i, depth as nat)))
      && LeafField(doc, depth as nat, "write_target").Some?
      && LeafField(doc, depth as nat, "write_target").value.Str?
      && |LeafField(doc, depth as nat, "write_target").value.s| == WriteTargetByteSize
  {
    var s := (k: nat, n: nat) => sample(i, k, n);
    assert IsAlphanumericSampler(s) by {
      forall k, n ensures |s(k, n)| == n && AllAlphanumeric(s(k, n)) {
        assert s(k, n) == sample(i, k, n);
      }
    }
    BuildLevelIsChain(1, depth as nat, i % 2 == 0, (l: nat) => word(i, l), s);
    BuildLevelLeaf(1, depth as nat, i % 2 == 0, (l: nat) => word(i, l), s);
  }

  /** The word source never yields the sentinel for the leaf level: nothing in
      the generator guarantees this, so the lemmas that need it assume it. */
  ghost predicate NeverDrawsSentinel(word: (nat, nat) -> string, level: nat) {
    forall i :: word(i, level) != Sentinel
  }

  /** Number of targetable documents among `docs`. */
  function CountTargetable(docs: seq<Value>, depth: nat): nat
    requires depth >= 1
  {
    if docs == [] then 0
    else CountTargetable(docs[..|docs| - 1], depth) + (if IsTargetable(docs[|docs| - 1], depth) then 1 else 0)
  }

  /** Whatever the word source draws, every even document is targetable,
      so at least ceil(count / 2) documents are. */
  lemma TargetableAtLeast(depth: u8, count: nat, word: (nat, nat) -> string,
                          sample: (nat, nat, nat) -> string)
    requires depth >= 1
    ensures forall i :: 0 <= i < count && i % 2 == 0 ==>
      IsTargetable(GenerateNestedData(depth, count, word, sample).items[i], depth as nat)
    ensures CountTargetable(GenerateNestedData(depth, count, word, sample).items, depth as nat) >= (count + 1) / 2
  {
    var docs := GenerateNestedData(depth, count, word, sample).items;
    forall i | 0 <= i < count && i % 2 == 0
      ensures IsTargetable(docs[i], depth as nat)
    {
      BuildLevelLeaf(1, depth as nat, true, (l: nat) => word(i, l), (k: nat, n: nat) => sample(i, k, n));
    }
    CountEvenPositionsAtLeast(docs, depth as nat);
  }

  /** A batch whose documents at even positions are targetable counts at
      least ceil(n / 2) of them. */
  lemma {:induction false} CountEvenPositionsAtLeast(docs: seq<Value>, depth: nat)
    requires depth >= 1
    requires forall i :: 0 <= i < |docs| && i % 2 == 0 ==> IsTargetable(docs[i], depth)
    ensures CountTargetable(docs, depth) >= (|docs| + 1) / 2
  {
    if docs != [] {
      var shorter := docs[..|docs| - 1];
      assert forall i :: 0 <= i < |shorter| ==> shorter[i] == docs[i];
      CountEvenPositionsAtLeast(shorter, depth);
    }
  }

  /** One document of a batch is targetable exactly when its index is even,
      when its leaf word is not the sentinel. */
  lemma TargetableExactlyEven(depth: u8, count: nat, i: nat, word: (nat, nat) -> string,
                              sample: (nat, nat, nat) -> string)
    requires depth >= 1 && i < count
    requires word(i, depth as nat) != Sentinel
    ensures IsTargetable(GenerateNestedData(depth, count, word, sample).items[i], depth as nat) <==> i % 2 == 0
  {
    BuildLevelLeaf(1, depth as nat, i % 2 == 0, (l: nat) => word(i, l), (k: nat, n: nat) => sample(i, k, n));
    assert Str(word(i, depth as nat)) != Str(Sentinel);
  }

  /** When no drawn leaf word happens to equal the sentinel, exactly the even
      indices are targetable: ceil(count / 2) documents. */
  lemma TargetableCount(depth: u8, count: nat, word: (nat, nat) -> string,
                        sample: (nat, nat, nat) -> string)
    requires depth >= 1
    requires NeverDrawsSentinel(word, depth as nat)
    ensures forall i :: 0 <= i < count ==>
      (IsTargetable(GenerateNestedData(depth, count, word, sample).items[i], depth as nat) <==> i % 2 == 0)
    ensures CountTargetable(GenerateNestedData(depth, count, word, sample).items, depth as nat) == (count + 1) / 2
  {
    var docs := GenerateNestedData(depth, count, word, sample).items;
    forall i | 0 <= i < count
      ensures IsTargetable(docs[i], depth as nat) <==> i % 2 == 0
    {
      TargetableExactlyEven(depth, count, i, word, sample);
    }
    CountEvenPositions(docs, depth as nat);
  }

  /** A batch whose targetable documents are exactly those at even positions
      counts ceil(n / 2) of them. */
  lemma {:induction false} CountEvenPositions(docs: seq<Value>, depth: nat)
    requires depth >= 1
    requires forall i :: 0 <= i < |docs| ==> (IsTargetable(docs[i], depth) <==> i % 2 == 0)
    ensures CountTargetable(docs, depth) == (|docs| + 1) / 2
  {
    if docs != [] {
      var shorter := docs[..|docs| - 1];
      assert forall i :: 0 <= i < |shorter| ==> shorter[i] == docs[i];
      CountEvenPositions(shorter, depth);
    }
  }
}
