/**
 `CvCudaPerf`: the push/pop recorder behind the benchmarks.  `Push`, `Pop` and
 `Survivors` say what one call does; the class below does it field by field.
 */
module PerfRecorder {
  import opened Text
  import opened Paths
  import opened PyDict

  datatype Frame = Frame(message: string, batchIdx: Option<int>)
  datatype Batch = Batch(idx: Option<int>, items: int)

  /** How a call ends: normally, or with the exception it raises. */
  datatype Outcome = Fine | IndexError | ValueError

  datatype State = State(
    objName: string,
    benchmark: bool,             // whether benchmark.py runs the script
    stack: seq<Frame>,
    stackPath: string,
    inside: int,                 // is_inside_batch
    timing: Dict<(int, int)>,
    batchInfo: Dict<Batch>,
    insideInfo: seq<string>,
    deleted: seq<string>,
    totals: map<string, int>)    // total_batches_processed

  const PLACEHOLDER := (0, 0)

  function Initial(objName: string, benchmark: bool): State {
    State(objName, benchmark, [], objName, 0, Empty(), Empty(), [], [], map[])
  }

  /** The message that goes on the stack. */
  function Named(message: string, batchIdx: Option<int>): string {
    if batchIdx.Some? then message + "_" + Decimal(batchIdx.value) else message
  }

  function Push(s: State, message: string, batchIdx: Option<int>): State {
    var name := Named(message, batchIdx);
    var s1 := if batchIdx.Some? then s.(inside := s.inside + 1) else s;
    if !s.benchmark then s1
    else s1.(stack := s1.stack + [Frame(name, batchIdx)], stackPath := Join(s1.stackPath, name))
  }

  /** The part of a pop that runs when the caller passes `total_items` inside a batch. */
  function RecordBatch(s: State, batchIdx: Option<int>, items: int, delete: bool): State {
    var s1 := s.(inside := s.inside - 1);
    if delete then s1
    else
      var s2 := s1.(batchInfo := s1.batchInfo.Put(s1.stackPath, Batch(batchIdx, items)));
      var level := Dirname(s2.stackPath);
      if items > 0 then s2.(totals := s2.totals[level := (if level in s2.totals then s2.totals[level] else 0) + 1])
      else s2
  }

  /** The entry that a pop makes for the current path. */
  function Note(s: State, delete: bool): State {
    var s1 := if !delete then s.(timing := s.timing.Put(s.stackPath, PLACEHOLDER)) else s.(deleted := s.deleted + [s.stackPath]);
    if s1.inside > 0 && !delete then s1.(insideInfo := s1.insideInfo + [s1.stackPath]) else s1
  }

  lemma NoteKeeps(s: State, delete: bool)
    ensures Note(s, delete).stack == s.stack && Note(s, delete).inside == s.inside && Note(s, delete).stackPath == s.stackPath
  {
  }

  /** A pop that raises `ValueError` has already unwound the stack, but not the path. */
  function Pop(s: State, total: Option<int>, delete: bool): (State, Outcome) {
    if !s.benchmark then (s, Fine)
    else if s.stack == [] then (s, IndexError)
    else
      var frame := s.stack[|s.stack| - 1];
      var s1 := Note(s.(stack := s.stack[..|s.stack| - 1]), delete);
      if total.Some? && s1.inside <= 0 then (s1, ValueError)
      else
        var s2 := if total.Some? then RecordBatch(s1, frame.batchIdx, total.value, delete) else s1;
        (s2.(stackPath := Dirname(s2.stackPath)), Fine)
  }

  /** No deleted range is a string prefix of the key. */
  predicate Spared(k: string, deleted: seq<string>) {
    forall i :: 0 <= i < |deleted| ==> !(deleted[i] <= k)
  }

  /** What the deletion pass of `finalize` leaves. */
  function Survivors(timing: Dict<(int, int)>, deleted: seq<string>): Dict<(int, int)> {
    Dict(Filter(timing.keys, k => Spared(k, deleted)), map k | k in timing.vals && Spared(k, deleted) :: timing.vals[k])
  }

  class CvCudaPerf {
    var objName: string
    var shouldBenchmark: bool
    var stack: seq<Frame>
    var stackPath: string
    var isInsideBatch: int
    var timingInfo: Dict<(int, int)>
    var batchInfo: Dict<Batch>
    var insideBatchInfo: seq<string>
    var deletedRangeInfo: seq<string>
    var totalBatchesProcessed: map<string, int>

    ghost function View(): State
      reads this
    {
      State(objName, shouldBenchmark, stack, stackPath, isInsideBatch, timingInfo, batchInfo, insideBatchInfo,
            deletedRangeInfo, totalBatchesProcessed)
    }

    constructor (objName: string, benchmark: bool)
      ensures View() == Initial(objName, benchmark)
    {
      this.objName, shouldBenchmark := objName, benchmark;
      stack, stackPath, isInsideBatch := [], objName, 0;
      timingInfo, batchInfo := Empty(), Empty();
      insideBatchInfo, deletedRangeInfo, totalBatchesProcessed := [], [], map[];
    }

    method PushRange(message: string, batchIdx: Option<int>)
      modifies this
      ensures View() == Push(old(View()), message, batchIdx)
    {
      var name := message;
      if batchIdx.Some? {
        name := name + "_" + Decimal(batchIdx.value);
        isInsideBatch := isInsideBatch + 1;
      }
      if shouldBenchmark {
        stack := stack + [Frame(name, batchIdx)];
        stackPath := Join(stackPath, name);
      }
    }

    /** The batch bookkeeping of `pop_range`. */
    method CloseBatch(batchIdx: Option<int>, items: int, deleteRange: bool)
      modifies this
      ensures View() == RecordBatch(old(View()), batchIdx, items, deleteRange)
    {
      hide Dirname;
      isInsideBatch := isInsideBatch - 1;
      if !deleteRange {
        batchInfo := batchInfo.Put(stackPath, Batch(batchIdx, items));
        if items > 0 {
          var level := Dirname(stackPath);
          var count := if level in totalBatchesProcessed then totalBatchesProcessed[level] else 0;
          totalBatchesProcessed := totalBatchesProcessed[level := count + 1];
        }
      }
    }

    /** The entry in the timing table, or in the list of deleted ranges. */
    method NotePath(deleteRange: bool)
      modifies this
      ensures View() == Note(old(View()), deleteRange)
    {
      if !deleteRange {
        timingInfo := timingInfo.Put(stackPath, PLACEHOLDER);
      } else {
        deletedRangeInfo := deletedRangeInfo + [stackPath];
      }
      if isInsideBatch > 0 && !deleteRange {
        insideBatchInfo := insideBatchInfo + [stackPath];
      }
    }

    method PopRange(totalItems: Option<int>, deleteRange: bool) returns (r: Outcome)
      modifies this
      ensures (View(), r) == Pop(old(View()), totalItems, deleteRange)
    {
      hide Note, RecordBatch, Dirname;
      r := Fine;
      if shouldBenchmark {
        if stack == [] {
          return IndexError;
        }
        var frame := stack[|stack| - 1];
        stack := stack[..|stack| - 1];
        ghost var s1 := View();
        NotePath(deleteRange);
        NoteKeeps(s1, deleteRange);
        if totalItems.Some? {
          if isInsideBatch <= 0 {
            return ValueError;
          }
          CloseBatch(frame.batchIdx, totalItems.value, deleteRange);
        }
        stackPath := Dirname(stackPath);
      }
    }

    /** The deletion pass of `finalize`, or its refusal when something is still on the stack. */
    method FinalizeDeletions() returns (ok: bool)
      requires timingInfo.Valid()
      modifies this`timingInfo
      ensures ok <==> !shouldBenchmark || stack == []
      ensures timingInfo == if ok && shouldBenchmark then Survivors(old(timingInfo), deletedRangeInfo) else old(timingInfo)
    {
      if !shouldBenchmark {
        return true;
      }
      if |stack| > 0 {
        return false;
      }
      ok := true;
      var keys := timingInfo.keys;
      ghost var was := timingInfo;
      SurvivorsOfNone(was);
      hide Partly, Survivors;
      for n := 0 to |deletedRangeInfo|
        invariant timingInfo == Survivors(was, deletedRangeInfo[..n])
      {
        var keyDelete := deletedRangeInfo[n];
        PartlyAll(was, deletedRangeInfo[..n], keyDelete);
        assert keys[..0] == [];
        for i := 0 to |keys|
          invariant timingInfo == Partly(was, deletedRangeInfo[..n], keyDelete, keys[..i])
        {
          PartlyStep(was, deletedRangeInfo[..n], keyDelete, keys, i);
          if keyDelete <= keys[i] {
            timingInfo := timingInfo.Remove(keys[i]);
          }
        }
        assert keys[..|keys|] == keys;
        assert deletedRangeInfo[..n + 1] == deletedRangeInfo[..n] + [keyDelete];
      }
      assert deletedRangeInfo[..|deletedRangeInfo|] == deletedRangeInfo;
    }
  }

  // ------------------------------------------------------- the two deletion loops

  /** What is left while one deleted range is compared with the keys seen so far. */
  ghost function Partly(was: Dict<(int, int)>, deleted: seq<string>, d: string, seen: seq<string>): Dict<(int, int)> {
    Dict(Filter(was.keys, k => Spared(k, deleted) && !(d <= k && k in seen)),
         map k | k in was.vals && Spared(k, deleted) && !(d <= k && k in seen) :: was.vals[k])
  }

  lemma PartlyStep(was: Dict<(int, int)>, deleted: seq<string>, d: string, keys: seq<string>, i: nat)
    requires i < |keys|
    ensures Partly(was, deleted, d, []) == Survivors(was, deleted)
    ensures Partly(was, deleted, d, keys[..i + 1])
         == if d <= keys[i] then Partly(was, deleted, d, keys[..i]).Remove(keys[i]) else Partly(was, deleted, d, keys[..i])
  {
    hide Spared;
    var seen, k := keys[..i], keys[i];
    var p := x => Spared(x, deleted) && !(d <= x && x in seen);
    var q := x => Spared(x, deleted) && !(d <= x && x in seen + [k]);
    FilterSame(was.keys, x => Spared(x, deleted) && !(d <= x && x in []), x => Spared(x, deleted));
    assert keys[..i + 1] == seen + [k];
    if d <= k {
      FilterWithout(was.keys, p, k);
      FilterSame(was.keys, x => p(x) && x != k, q);
    } else {
      FilterSame(was.keys, p, q);
    }
  }

  lemma PartlyAll(was: Dict<(int, int)>, deleted: seq<string>, d: string)
    requires was.Valid()
    ensures Partly(was, deleted, d, was.keys) == Survivors(was, deleted + [d])
    ensures Partly(was, deleted, d, []) == Survivors(was, deleted)
  {
    forall k ensures Spared(k, deleted + [d]) <==> Spared(k, deleted) && !(d <= k) {
      assert (deleted + [d])[|deleted|] == d;
      assert forall i :: 0 <= i < |deleted| ==> (deleted + [d])[i] == deleted[i];
    }
    FilterSame(was.keys, x => Spared(x, deleted) && !(d <= x && x in was.keys), x => Spared(x, deleted + [d]));
    FilterSame(was.keys, x => Spared(x, deleted) && !(d <= x && x in []), x => Spared(x, deleted));
  }

  lemma SurvivorsOfNone(was: Dict<(int, int)>)
    requires was.Valid()
    ensures Survivors(was, []) == was
  {
    FilterAll(was.keys);
    FilterSame(was.keys, x => Spared(x, []), x => true);
  }
}
