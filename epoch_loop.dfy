/** The epoch loop (main.py:611-671): per epoch, the running best accuracy,
    the checkpoint files written and the log line appended. Training and
    evaluation are an oracle `outcome` that gives, per epoch index, the
    training statistics, the test statistics and the library state that a
    checkpoint of that epoch holds. */
module EpochLoop {
  import opened Wrappers
  import opened RunConfig
  import opened Paths
  import opened Checkpoint
  import opened EpochLog

  /** What one epoch of training and evaluation produces. */
  datatype EpochOutcome = EpochOutcome(train: map<string, real>, test: TestStats, state: Snapshot)

  /** One checkpoint write: the file and the record written to it. */
  datatype Save = Save(path: string, record: Record)

  /** Python's two-argument `max` on accuracies. */
  function Max(a: real, b: real): (m: real)
    ensures a <= m && b <= m && (m == a || m == b)
  {
    if b > a then b else a
  }

  /** The best accuracy after a sequence of epochs, starting from `m0`:
      the running `max` of the loop. */
  function RunningMax(m0: real, accs: seq<real>): real
    decreases |accs|
  {
    if accs == [] then m0
    else Max(RunningMax(m0, accs[..|accs| - 1]), accs[|accs| - 1])
  }

  /** The running maximum bounds the starting best and every accuracy seen,
      and is one of them. */
  lemma {:induction false} RunningMaxIsMaximum(m0: real, accs: seq<real>)
    ensures m0 <= RunningMax(m0, accs)
    ensures forall i :: 0 <= i < |accs| ==> accs[i] <= RunningMax(m0, accs)
    ensures RunningMax(m0, accs) == m0 || exists i :: 0 <= i < |accs| && accs[i] == RunningMax(m0, accs)
    decreases |accs|
  {
    if accs != [] {
      var init := accs[..|accs| - 1];
      RunningMaxIsMaximum(m0, init);
      assert forall i :: 0 <= i < |init| ==> init[i] == accs[i];
    }
  }

  /** The best accuracy never decreases from one epoch to a later one. */
  lemma RunningMaxMonotone(m0: real, accs: seq<real>, i: nat, j: nat)
    requires i <= j <= |accs|
    ensures RunningMax(m0, accs[..i]) <= RunningMax(m0, accs[..j])
  {
    RunningMaxIsMaximum(m0, accs[..i]);
    RunningMaxIsMaximum(m0, accs[..j]);
    var m := RunningMax(m0, accs[..i]);
    if m != m0 {
      var k :| 0 <= k < i && accs[..i][k] == m;
      assert accs[..j][k] == m;
    }
  }

  /** The epoch of index `i` is a best epoch (its accuracy equals the best
      accuracy including it) exactly when its accuracy is at least the
      starting best and every earlier accuracy: ties count. */
  lemma BestIff(m0: real, accs: seq<real>, i: nat)
    requires i < |accs|
    ensures accs[i] == RunningMax(m0, accs[..i + 1]) <==>
            (m0 <= accs[i] && forall j :: 0 <= j < i ==> accs[j] <= accs[i])
  {
    assert accs[..i + 1][..i] == accs[..i];
    RunningMaxIsMaximum(m0, accs[..i]);
    var prev := RunningMax(m0, accs[..i]);
    assert RunningMax(m0, accs[..i + 1]) == Max(prev, accs[i]);
    if m0 <= accs[i] && forall j :: 0 <= j < i ==> accs[j] <= accs[i] {
      if prev != m0 {
        var k :| 0 <= k < i && accs[..i][k] == prev;
        assert accs[k] <= accs[i];
      }
    } else if accs[i] == Max(prev, accs[i]) {
      forall j | 0 <= j < i ensures accs[j] <= accs[i] {
        assert accs[..i][j] == accs[j];
      }
    }
  }

  /** The accuracy sequence [10, 30, 20, 30] from a starting best of 0:
      epochs 0, 1 and 3 are best epochs, epoch 2 is not. */
  lemma BestEpochsExample()
    ensures var accs := [10.0, 30.0, 20.0, 30.0];
            && accs[0] == RunningMax(0.0, accs[..1])
            && accs[1] == RunningMax(0.0, accs[..2])
            && accs[2] != RunningMax(0.0, accs[..3])
            && accs[3] == RunningMax(0.0, accs[..4])
  {
    var accs := [10.0, 30.0, 20.0, 30.0];
    BestIff(0.0, accs, 0);
    BestIff(0.0, accs, 1);
    BestIff(0.0, accs, 2);
    BestIff(0.0, accs, 3);
  }

  /** The number of epochs `range(start, epochs)` visits. */
  function Iterations(start: int, epochs: int): (n: nat)
    ensures start < epochs ==> start + n == epochs
    ensures epochs <= start ==> n == 0
  {
    if start < epochs then epochs - start else 0
  }

  /** The top-1 accuracies of the first `n` epochs from `start`. */
  function Accuracies(outcome: int -> EpochOutcome, start: int, n: nat): seq<real> {
    seq(n, i => outcome(start + i).test.acc1)
  }

  /** The writes of one epoch: none without an output directory; otherwise
      the rolling checkpoint, then the best checkpoint when this epoch's
      accuracy equals the (already updated) best accuracy, both holding the
      same record. */
  function EpochSaves(a: Args, epoch: int, acc1: real, maxAccuracy: real, s: Snapshot): (w: seq<Save>)
    ensures a.outputDir == "" ==> w == []
    ensures a.outputDir != "" ==> |w| == (if acc1 == maxAccuracy then 2 else 1)
    ensures a.outputDir != "" ==> w[0].path == LatestPath(a.outputDir)
    ensures |w| == 2 ==> w[1].path == BestPath(a.outputDir)
    ensures forall k :: 0 <= k < |w| ==> w[k].record == StateDict(a, epoch, maxAccuracy, s)
  {
    if a.outputDir == "" then []
    else
      var paths := [LatestPath(a.outputDir)] + (if acc1 == maxAccuracy then [BestPath(a.outputDir)] else []);
      seq(|paths|, k requires 0 <= k < |paths| => Save(paths[k], StateDict(a, epoch, maxAccuracy, s)))
  }

  /** The best accuracy after the first `n` epochs, from `m0`: each epoch
      takes the `max` of the best so far and its own accuracy. */
  function MaxAfter(a: Args, m0: real, outcome: int -> EpochOutcome, n: nat): real {
    if n == 0 then m0
    else Max(MaxAfter(a, m0, outcome, n - 1), outcome(a.startEpoch + n - 1).test.acc1)
  }

  /** The epochs visited by the first `n` iterations from `start`. */
  function VisitedAfter(start: int, n: nat): seq<int> {
    if n == 0 then [] else VisitedAfter(start, n - 1) + [start + n - 1]
  }

  /** The checkpoint writes of the first `n` epochs; each epoch writes with
      the best accuracy already updated by its own result. */
  function SavesAfter(a: Args, m0: real, outcome: int -> EpochOutcome, n: nat): seq<Save> {
    if n == 0 then []
    else
      var e := a.startEpoch + n - 1;
      SavesAfter(a, m0, outcome, n - 1)
      + EpochSaves(a, e, outcome(e).test.acc1, MaxAfter(a, m0, outcome, n), outcome(e).state)
  }

  /** The log records of the first `n` epochs: one per epoch, appended only
      with an output directory and on the main process. The line written to
      `log.txt` for a record `r` is the JSON form of `LogStats(r)`. */
  function LogAfter(a: Args, nParameters: nat, isMain: bool, outcome: int -> EpochOutcome, n: nat): seq<LogRecord> {
    if n == 0 then []
    else
      var e := a.startEpoch + n - 1;
      LogAfter(a, nParameters, isMain, outcome, n - 1)
      + (if a.outputDir != "" && isMain then [LogRecord(outcome(e).train, outcome(e).test, e, nParameters)] else [])
  }

  /** The loop's state after some epochs: the best accuracy, the epochs
      visited, the checkpoint writes and the log records, in order. */
  datatype Progress = Progress(maxAccuracy: real, visited: seq<int>, saves: seq<Save>, log: seq<LogRecord>)

  /** The loop's state after its first `n` epochs. */
  function Trace(a: Args, m0: real, nParameters: nat, isMain: bool, outcome: int -> EpochOutcome, n: nat): Progress {
    Progress(
      MaxAfter(a, m0, outcome, n),
      VisitedAfter(a.startEpoch, n),
      SavesAfter(a, m0, outcome, n),
      LogAfter(a, nParameters, isMain, outcome, n))
  }

  /** After `n` epochs the best accuracy is the running maximum of the
      starting best and the first `n` accuracies. */
  lemma {:induction false} MaxAfterIsRunningMax(a: Args, m0: real, outcome: int -> EpochOutcome, n: nat)
    ensures MaxAfter(a, m0, outcome, n) == RunningMax(m0, Accuracies(outcome, a.startEpoch, n))
  {
    if n > 0 {
      MaxAfterIsRunningMax(a, m0, outcome, n - 1);
      assert Accuracies(outcome, a.startEpoch, n)[..n - 1] == Accuracies(outcome, a.startEpoch, n - 1);
    }
  }

  /** The best accuracy never decreases as epochs go by. */
  lemma MaxAfterMonotone(a: Args, m0: real, outcome: int -> EpochOutcome, i: nat, j: nat)
    requires i <= j
    ensures MaxAfter(a, m0, outcome, i) <= MaxAfter(a, m0, outcome, j)
  {
    MaxAfterIsRunningMax(a, m0, outcome, i);
    MaxAfterIsRunningMax(a, m0, outcome, j);
    var accs := Accuracies(outcome, a.startEpoch, j);
    assert accs[..i] == Accuracies(outcome, a.startEpoch, i);
    assert accs[..j] == accs;
    RunningMaxMonotone(m0, accs, i, j);
  }

  /** The loop visits `start, start + 1, ...` in increasing order, one
      epoch per iteration. */
  lemma {:induction false} VisitedAfterInOrder(start: int, n: nat)
    ensures var v := VisitedAfter(start, n);
            |v| == n && forall k :: 0 <= k < n ==> v[k] == start + k
  {
    if n > 0 {
      VisitedAfterInOrder(start, n - 1);
    }
  }

  /** One log record per epoch, for that epoch's statistics, when there is
      an output directory and this is the main process; none otherwise. */
  lemma {:induction false} LogAfterRecords(a: Args, nParameters: nat, isMain: bool, outcome: int -> EpochOutcome, n: nat)
    ensures var log := LogAfter(a, nParameters, isMain, outcome, n);
            && |log| == (if a.outputDir != "" && isMain then n else 0)
            && forall k :: 0 <= k < |log| ==>
                 log[k] == LogRecord(outcome(a.startEpoch + k).train, outcome(a.startEpoch + k).test,
                                     a.startEpoch + k, nParameters)
  {
    if n > 0 {
      LogAfterRecords(a, nParameters, isMain, outcome, n - 1);
    }
  }

  /** The writes the epoch of index `i` adds to those before it, with the
      best accuracy including that epoch. */
  lemma WritesOfEpoch(a: Args, m0: real, outcome: int -> EpochOutcome, i: nat)
    ensures var o := outcome(a.startEpoch + i);
            SavesAfter(a, m0, outcome, i + 1)
            == SavesAfter(a, m0, outcome, i)
               + EpochSaves(a, a.startEpoch + i, o.test.acc1,
                            RunningMax(m0, Accuracies(outcome, a.startEpoch, i + 1)), o.state)
  {
    MaxAfterIsRunningMax(a, m0, outcome, i + 1);
    var e := a.startEpoch + i;
    assert SavesAfter(a, m0, outcome, i + 1)
           == SavesAfter(a, m0, outcome, i)
              + EpochSaves(a, e, outcome(e).test.acc1, MaxAfter(a, m0, outcome, i + 1), outcome(e).state);
  }

  /** With an output directory, the epoch of index `i` always writes the
      rolling checkpoint first, and then writes the best checkpoint exactly
      when its accuracy is at least the starting best and every earlier
      accuracy. */
  lemma BestWrittenIff(a: Args, m0: real, outcome: int -> EpochOutcome, i: nat)
    requires a.outputDir != ""
    ensures var before := SavesAfter(a, m0, outcome, i);
            var after := SavesAfter(a, m0, outcome, i + 1);
            var accs := Accuracies(outcome, a.startEpoch, i + 1);
            && |before| < |after| <= |before| + 2
            && after[|before|].path == LatestPath(a.outputDir)
            && ((|after| == |before| + 2 && after[|before| + 1].path == BestPath(a.outputDir))
                <==> (m0 <= accs[i] && forall j :: 0 <= j < i ==> accs[j] <= accs[i]))
  {
    WritesOfEpoch(a, m0, outcome, i);
    var accs := Accuracies(outcome, a.startEpoch, i + 1);
    var o := outcome(a.startEpoch + i);
    var w := EpochSaves(a, a.startEpoch + i, o.test.acc1, RunningMax(m0, accs), o.state);
    assert accs[..i + 1] == accs;
    BestIff(m0, accs, i);
    LatestIsNotBest(a.outputDir);
    var before := SavesAfter(a, m0, outcome, i);
    var after := SavesAfter(a, m0, outcome, i + 1);
    assert after == before + w;
    assert after[|before|] == w[0];
    assert |w| == 2 ==> after[|before| + 1] == w[1];
  }

  /** Without an output directory nothing is written. */
  lemma {:induction false} NoOutputDirNoWrites(a: Args, m0: real, outcome: int -> EpochOutcome, n: nat)
    requires a.outputDir == ""
    ensures SavesAfter(a, m0, outcome, n) == []
  {
    if n > 0 {
      NoOutputDirNoWrites(a, m0, outcome, n - 1);
    }
  }

  /** A write goes to one of the two checkpoint files and holds a record
      with exactly the saved keys, the arguments of the run and an epoch in
      `[lo, hi)`. */
  predicate SavedBy(a: Args, lo: int, hi: int, s: Save) {
    && (s.path == LatestPath(a.outputDir) || s.path == BestPath(a.outputDir))
    && Keys(s.record) == SavedKeys + (if a.modelEma then {"model_ema"} else {})
    && s.record.args == Some(a)
    && s.record.epoch.Some? && lo <= s.record.epoch.value < hi
  }

  /** The writes of one epoch all satisfy `SavedBy` for that epoch. */
  lemma EpochSavesSavedBy(a: Args, epoch: int, acc1: real, maxAccuracy: real, st: Snapshot, lo: int, hi: int)
    requires lo <= epoch < hi
    ensures forall s :: s in EpochSaves(a, epoch, acc1, maxAccuracy, st) ==> SavedBy(a, lo, hi, s)
  {
    StateDictKeys(a, epoch, maxAccuracy, st);
  }

  /** Appending the writes of epoch `hi - 1` to writes of earlier epochs. */
  lemma SavedByAppend(a: Args, lo: int, hi: int, before: seq<Save>, w: seq<Save>)
    requires forall s :: s in before ==> SavedBy(a, lo, hi - 1, s)
    requires forall s :: s in w ==> SavedBy(a, lo, hi, s)
    ensures forall s :: s in before + w ==> SavedBy(a, lo, hi, s)
  {
    forall s | s in before + w ensures SavedBy(a, lo, hi, s) {
      if s in before {
        assert SavedBy(a, lo, hi - 1, s);
      }
    }
  }

  /** Every write of the loop satisfies `SavedBy` for the epochs run. */
  lemma {:induction false} SavedRecords(a: Args, m0: real, outcome: int -> EpochOutcome, n: nat)
    ensures forall s :: s in SavesAfter(a, m0, outcome, n) ==> SavedBy(a, a.startEpoch, a.startEpoch + n, s)
  {
    if n > 0 {
      SavedRecords(a, m0, outcome, n - 1);
      var e := a.startEpoch + n - 1;
      var m := MaxAfter(a, m0, outcome, n);
      var o := outcome(e);
      EpochSavesSavedBy(a, e, o.test.acc1, m, o.state, a.startEpoch, a.startEpoch + n);
      SavedByAppend(a, a.startEpoch, a.startEpoch + n, SavesAfter(a, m0, outcome, n - 1),
                    EpochSaves(a, e, o.test.acc1, m, o.state));
    }
  }

  /** The record a file holds after a sequence of writes: the last one
      written to it. */
  function LastWrite(saves: seq<Save>, path: string): Option<Record>
    decreases |saves|
  {
    if saves == [] then None
    else if saves[|saves| - 1].path == path then Some(saves[|saves| - 1].record)
    else LastWrite(saves[..|saves| - 1], path)
  }

  /** Later writes to a file replace earlier ones. */
  lemma {:induction false} LastWriteAppend(x: seq<Save>, y: seq<Save>, path: string)
    ensures LastWrite(x + y, path) == if LastWrite(y, path).Some? then LastWrite(y, path) else LastWrite(x, path)
    decreases |y|
  {
    if y != [] {
      assert (x + y)[..|x + y| - 1] == x + y[..|y| - 1];
      LastWriteAppend(x, y[..|y| - 1], path);
    } else {
      assert x + y == x;
    }
  }

  /** After `n > 0` epochs with an output directory, the rolling checkpoint
      holds the record of the last epoch, with the best accuracy so far. */
  lemma LatestHoldsLastEpoch(a: Args, m0: real, outcome: int -> EpochOutcome, n: nat)
    requires a.outputDir != "" && n > 0
    ensures var e := a.startEpoch + n - 1;
            LastWrite(SavesAfter(a, m0, outcome, n), LatestPath(a.outputDir))
            == Some(StateDict(a, e, MaxAfter(a, m0, outcome, n), outcome(e).state))
  {
    var e := a.startEpoch + n - 1;
    var o := outcome(e);
    var m := MaxAfter(a, m0, outcome, n);
    var w := EpochSaves(a, e, o.test.acc1, m, o.state);
    LatestIsNotBest(a.outputDir);
    assert LastWrite(w, LatestPath(a.outputDir)) == Some(StateDict(a, e, m, o.state)) by {
      if |w| == 2 {
        assert w[..1] == [w[0]];
        assert w[..1][..0] == [];
      } else {
        assert w[..0] == [];
      }
    }
    LastWriteAppend(SavesAfter(a, m0, outcome, n - 1), w, LatestPath(a.outputDir));
  }

  /** The checkpoint writes after one epoch: the list of checkpoint paths
      is built, then the same record is saved to each path in turn. */
  method WriteCheckpoints(a: Args, epoch: int, acc1: real, maxAccuracy: real, s: Snapshot)
    returns (w: seq<Save>)
    ensures w == EpochSaves(a, epoch, acc1, maxAccuracy, s)
  {
    w := [];
    if a.outputDir != "" {
      var checkpointPaths := [LatestPath(a.outputDir)];
      if acc1 == maxAccuracy {
        checkpointPaths := checkpointPaths + [BestPath(a.outputDir)];
      }
      for k := 0 to |checkpointPaths|
        invariant w == EpochSaves(a, epoch, acc1, maxAccuracy, s)[..k]
      {
        var stateDict := StateDict(a, epoch, maxAccuracy, s);
        w := w + [Save(checkpointPaths[k], stateDict)];
      }
    }
  }

  /** One pass of the loop body, for the epoch of index `k`: update the
      best accuracy, write the checkpoints, then append the log line when
      there is an output directory and this is the main process. From the
      state after `k` epochs it reaches the state after `k + 1`. */
  method TrainEpoch(a: Args, m0: real, nParameters: nat, isMain: bool, outcome: int -> EpochOutcome,
                    k: nat, p: Progress)
    returns (q: Progress)
    requires p == Trace(a, m0, nParameters, isMain, outcome, k)
    ensures q == Trace(a, m0, nParameters, isMain, outcome, k + 1)
  {
    var epoch := a.startEpoch + k;
    var o := outcome(epoch);
    var maxAccuracy := Max(p.maxAccuracy, o.test.acc1);
    var written := WriteCheckpoints(a, epoch, o.test.acc1, maxAccuracy, o.state);
    var log := p.log;
    if a.outputDir != "" && isMain {
      log := log + [LogRecord(o.train, o.test, epoch, nParameters)];
    }
    q := Progress(maxAccuracy, p.visited + [epoch], p.saves + written, log);
  }

  /** The training loop over `range(a.startEpoch, a.epochs)`, starting
      from the best accuracy `maxAccuracy0`. Its result is the state
      `Trace` describes after all its epochs; in particular the best
      accuracy is the running maximum of all accuracies seen and the epochs
      are visited once each, in increasing order. */
  method TrainLoop(a: Args, maxAccuracy0: real, nParameters: nat, isMain: bool, outcome: int -> EpochOutcome)
    returns (progress: Progress)
    ensures progress == Trace(a, maxAccuracy0, nParameters, isMain, outcome, Iterations(a.startEpoch, a.epochs))
    ensures progress.maxAccuracy
            == RunningMax(maxAccuracy0, Accuracies(outcome, a.startEpoch, Iterations(a.startEpoch, a.epochs)))
    ensures |progress.visited| == Iterations(a.startEpoch, a.epochs)
    ensures forall k :: 0 <= k < |progress.visited| ==> progress.visited[k] == a.startEpoch + k
  {
    progress := Progress(maxAccuracy0, [], [], []);
    for k := 0 to Iterations(a.startEpoch, a.epochs)
      invariant progress == Trace(a, maxAccuracy0, nParameters, isMain, outcome, k)
    {
      progress := TrainEpoch(a, maxAccuracy0, nParameters, isMain, outcome, k, progress);
    }
    MaxAfterIsRunningMax(a, maxAccuracy0, outcome, Iterations(a.startEpoch, a.epochs));
    VisitedAfterInOrder(a.startEpoch, Iterations(a.startEpoch, a.epochs));
  }
}
