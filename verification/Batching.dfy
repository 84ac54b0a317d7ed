/** Batches of object names, as the batcher of `deleteObjects` builds them
    (qiniu/kodo.go:605-661). */
module Batching {

  const MAX_BATCH_SIZE: nat := 100

  type Batch = seq<string>

  /** The names of a sequence of batches, in order. */
  function Flatten(batches: seq<Batch>): seq<string> {
    if batches == [] then [] else batches[0] + Flatten(batches[1..])
  }

  /** A full batch is handed over as soon as it holds MAX_BATCH_SIZE names; what is left at the
      end of the stream, if anything, makes one last shorter batch. */
  ghost predicate BatchesOf(batches: seq<Batch>, names: seq<string>) {
    && Flatten(batches) == names
    && AllFullButLast(batches)
  }

  ghost predicate AllFullButLast(batches: seq<Batch>) {
    && (forall i :: 0 <= i < |batches| - 1 ==> |batches[i]| == MAX_BATCH_SIZE)
    && (batches != [] ==> 0 < |batches[|batches| - 1]| <= MAX_BATCH_SIZE)
  }

  ghost predicate AllFull(batches: seq<Batch>) {
    forall i :: 0 <= i < |batches| ==> |batches[i]| == MAX_BATCH_SIZE
  }

  lemma {:induction false} FlattenAppend(a: seq<Batch>, b: seq<Batch>)
    ensures Flatten(a + b) == Flatten(a) + Flatten(b)
  {
    if a == [] {
      assert a + b == b;
    } else {
      assert (a + b)[1..] == a[1..] + b;
      FlattenAppend(a[1..], b);
    }
  }

  lemma FlattenSnoc(a: seq<Batch>, b: Batch)
    ensures Flatten(a + [b]) == Flatten(a) + b
  {
    FlattenAppend(a, [b]);
  }

  lemma {:induction false} FlattenFullLength(batches: seq<Batch>)
    requires AllFull(batches)
    ensures |Flatten(batches)| == MAX_BATCH_SIZE * |batches|
  {
    if batches != [] {
      FlattenFullLength(batches[1..]);
    }
  }

  /** The number of batches is the number of names divided by MAX_BATCH_SIZE, rounded up. */
  lemma BatchCount(batches: seq<Batch>, names: seq<string>)
    requires BatchesOf(batches, names)
    ensures |batches| == (|names| + MAX_BATCH_SIZE - 1) / MAX_BATCH_SIZE
  {
    if batches != [] {
      var full, last := batches[..|batches| - 1], batches[|batches| - 1];
      assert batches == full + [last];
      FlattenSnoc(full, last);
      FlattenFullLength(full);
    }
  }

  /** A name stream has only one division into batches. */
  lemma {:induction false} BatchesUnique(a: seq<Batch>, b: seq<Batch>, names: seq<string>)
    requires BatchesOf(a, names) && BatchesOf(b, names)
    ensures a == b
  {
    BatchCount(a, names);
    BatchCount(b, names);
    if a != [] {
      FirstBatch(a);
      FirstBatch(b);
      assert a[0] == b[0];
      BatchesUnique(a[1..], b[1..], names[|a[0]|..]);
    }
  }

  lemma FirstBatch(a: seq<Batch>)
    requires a != [] && AllFullButLast(a)
    ensures var names := Flatten(a);
            && |a[0]| == (if |names| < MAX_BATCH_SIZE then |names| else MAX_BATCH_SIZE)
            && a[0] == names[..|a[0]|]
            && BatchesOf(a[1..], names[|a[0]|..])
  {
    assert AllFullButLast(a[1..]) by {
      forall i | 0 <= i < |a[1..]| - 1
        ensures |a[1..][i]| == MAX_BATCH_SIZE
      {
        assert a[1..][i] == a[i + 1];
      }
    }
    if |a| == 1 {
      assert Flatten(a) == a[0];
    }
  }

  /** A Go slice: the first `len` cells of an array of capacity MAX_BATCH_SIZE. */
  datatype Slice = Slice(cells: array<string>, len: nat)

  /** The slices use pairwise different arrays, and slice i holds batch i. */
  ghost predicate Hold(slices: seq<Slice>, batches: seq<Batch>)
    reads set i | 0 <= i < |slices| :: slices[i].cells
  {
    && |slices| == |batches|
    && (forall i, j :: 0 <= i < j < |slices| ==> slices[i].cells != slices[j].cells)
    && (forall i :: 0 <= i < |slices| ==>
          slices[i].len <= slices[i].cells.Length && slices[i].cells[..slices[i].len] == batches[i])
  }

  lemma HoldSnoc(slices: seq<Slice>, batches: seq<Batch>, last: Slice)
    requires Hold(slices, batches)
    requires forall i :: 0 <= i < |slices| ==> slices[i].cells != last.cells
    requires last.len <= last.cells.Length
    ensures Hold(slices + [last], batches + [last.cells[..last.len]])
  {
  }

  lemma TakeOne(batches: seq<Batch>, held: Batch, names: seq<string>, n: nat)
    requires n < |names| && Flatten(batches) + held == names[..n]
    ensures Flatten(batches) + (held + [names[n]]) == names[..n + 1]
  {
  }

  /** Appends one name to the buffer, which none of the slices uses. */
  method Append(handed: seq<Slice>, ghost batches: seq<Batch>, buffer: array<string>, len: nat, name: string)
    requires len < buffer.Length && Hold(handed, batches) && Unused(handed, buffer)
    modifies buffer
    ensures Hold(handed, batches) && buffer[..len + 1] == old(buffer[..len]) + [name]
  {
    buffer[len] := name;
    assert Hold(handed, batches);
  }

  ghost predicate Unused(slices: seq<Slice>, buffer: array<string>) {
    forall i :: 0 <= i < |slices| ==> slices[i].cells != buffer
  }

  /** Hands the buffer over and allocates another one. */
  method HandOver(handed: seq<Slice>, ghost batches: seq<Batch>, buffer: array<string>, len: nat)
    returns (more: seq<Slice>, next: array<string>)
    requires len <= buffer.Length && Hold(handed, batches) && Unused(handed, buffer)
    ensures more == handed + [Slice(buffer, len)] && Hold(more, batches + [buffer[..len]])
    ensures fresh(next) && next.Length == MAX_BATCH_SIZE && Unused(more, next)
  {
    HoldSnoc(handed, batches, Slice(buffer, len));
    more := handed + [Slice(buffer, len)];
    next := new string[MAX_BATCH_SIZE];
  }

  /** What has been handed over together with the buffer is what has been read. */
  ghost predicate ReadSoFar(batches: seq<Batch>, held: Batch, names: seq<string>, n: nat) {
    n <= |names| && AllFull(batches) && |held| < MAX_BATCH_SIZE && Flatten(batches) + held == names[..n]
  }

  lemma HandOverFull(batches: seq<Batch>, held: Batch, name: string, names: seq<string>, n: nat)
    requires ReadSoFar(batches, held, names, n) && n < |names| && names[n] == name
    ensures var more := held + [name];
            if |more| >= MAX_BATCH_SIZE then ReadSoFar(batches + [more], [], names, n + 1)
            else ReadSoFar(batches, more, names, n + 1)
  {
    TakeOne(batches, held, names, n);
    FlattenSnoc(batches, held + [name]);
    var all := Flatten(batches) + (held + [name]);
    assert all + [] == all;
  }

  lemma HandOverLast(batches: seq<Batch>, held: Batch, names: seq<string>)
    requires ReadSoFar(batches, held, names, |names|)
    ensures BatchesOf(if held == [] then batches else batches + [held], names)
  {
    assert names[..|names|] == names && Flatten(batches) + [] == Flatten(batches);
    FlattenSnoc(batches, held);
  }

  /** The state of the loop before it reads name `n`. */
  ghost predicate Going(handed: seq<Slice>, batches: seq<Batch>, buffer: array<string>, len: nat, names: seq<string>,
                        n: nat)
    reads buffer, set i | 0 <= i < |handed| :: handed[i].cells
  {
    && buffer.Length == MAX_BATCH_SIZE && len < MAX_BATCH_SIZE
    && Unused(handed, buffer) && Hold(handed, batches) && ReadSoFar(batches, buffer[..len], names, n)
  }

  /** One iteration. */
  method TakeName(handed: seq<Slice>, ghost batches: seq<Batch>, buffer: array<string>, len: nat, names: seq<string>,
                  n: nat)
    returns (handed': seq<Slice>, ghost batches': seq<Batch>, buffer': array<string>, len': nat)
    requires n < |names| && Going(handed, batches, buffer, len, names, n)
    modifies buffer
    ensures Going(handed', batches', buffer', len', names, n + 1)
    ensures (handed' == handed && buffer' == buffer) || (handed' == handed + [Slice(buffer, len + 1)] && fresh(buffer'))
  {
    HandOverFull(batches, buffer[..len], names[n], names, n);
    Append(handed, batches, buffer, len, names[n]);
    handed', batches', buffer', len' := handed, batches, buffer, len + 1;
    if len' >= MAX_BATCH_SIZE {
      batches' := batches + [buffer[..len']];
      handed', buffer' := HandOver(handed, batches, buffer, len');
      len' := 0;
    }
  }

  /** The batcher loop on a name stream that is read to its end.  The buffer is replaced, not
      reused, once it has been handed over: no array is handed over twice, and every slice still
      holds its own batch when the loop ends. */
  method CollectBatches(names: seq<string>) returns (handed: seq<Slice>, ghost batches: seq<Batch>)
    ensures forall i :: 0 <= i < |handed| ==> fresh(handed[i].cells)
    ensures Hold(handed, batches)
    ensures BatchesOf(batches, names)
  {
    handed, batches := [], [];
    var buffer := new string[MAX_BATCH_SIZE];
    var len: nat := 0;
    assert buffer[..0] == [];
    for n := 0 to |names|
      invariant fresh(buffer) && forall i :: 0 <= i < |handed| ==> fresh(handed[i].cells)
      invariant Going(handed, batches, buffer, len, names, n)
    {
      handed, batches, buffer, len := TakeName(handed, batches, buffer, len, names, n);
    }
    handed, batches := HandOverRest(handed, batches, buffer, len, names);
  }

  /** After the loop, what is left in the buffer is handed over too. */
  method HandOverRest(handed: seq<Slice>, ghost batches: seq<Batch>, buffer: array<string>, len: nat,
                      names: seq<string>)
    returns (handed': seq<Slice>, ghost batches': seq<Batch>)
    requires Going(handed, batches, buffer, len, names, |names|)
    ensures Hold(handed', batches') && BatchesOf(batches', names)
    ensures handed' == handed || handed' == handed + [Slice(buffer, len)]
  {
    HandOverLast(batches, buffer[..len], names);
    handed', batches' := handed, batches;
    if len > 0 {
      HoldSnoc(handed, batches, Slice(buffer, len));
      handed', batches' := handed + [Slice(buffer, len)], batches + [buffer[..len]];
    }
  }
}
