/** Durations of tasks run by a pool of workers, and the validators' bound on their sum. */
module ParallelTime {
  /** One task on the clock of the measuring process, in seconds. */
  datatype Task = Task(start: real, end: real)

  /** int(seconds * 1000). */
  function Millis(seconds: real): int {
    (seconds * 1000.0).Floor
  }

  function TaskMs(t: Task): int {
    Millis(t.end - t.start)
  }

  function WorkerMs(tasks: seq<Task>): int {
    if tasks == [] then 0 else WorkerMs(tasks[..|tasks| - 1]) + TaskMs(tasks[|tasks| - 1])
  }

  function PoolMs(workers: seq<seq<Task>>): int {
    if workers == [] then 0 else PoolMs(workers[..|workers| - 1]) + WorkerMs(workers[|workers| - 1])
  }

  /** A worker runs its tasks one after another, between two clock readings. */
  ghost predicate RunsWithin(tasks: seq<Task>, from: real, to: real) {
    && from <= to
    && (forall i :: 0 <= i < |tasks| ==> from <= tasks[i].start <= tasks[i].end <= to)
    && (forall i :: 0 <= i < |tasks| - 1 ==> tasks[i].end <= tasks[i + 1].start)
  }

  lemma {:induction false} FloorsAdd(a: real, b: real)
    ensures Millis(a) + Millis(b) <= Millis(a + b)
  {}

  lemma {:induction false} FloorGrows(a: real, b: real)
    requires a <= b
    ensures Millis(a) <= Millis(b)
  {}

  /** Truncating every task loses time, so one worker's tasks fit in the truncated span. */
  lemma {:induction false} WorkerFits(tasks: seq<Task>, from: real, to: real)
    requires RunsWithin(tasks, from, to)
    ensures WorkerMs(tasks) <= Millis(to - from)
    decreases |tasks|
  {
    if tasks == [] {
      FloorGrows(0.0, to - from);
    } else {
      var last := tasks[|tasks| - 1];
      var front := tasks[..|tasks| - 1];
      forall i | 0 <= i < |front| ensures front[i].end <= last.start {
        EndsBefore(tasks, from, to, i);
      }
      WorkerFits(front, from, last.start);
      FloorsAdd(last.start - from, last.end - last.start);
      FloorGrows(last.end - from, to - from);
    }
  }

  lemma {:induction false} EndsBefore(tasks: seq<Task>, from: real, to: real, i: nat)
    requires RunsWithin(tasks, from, to) && i < |tasks| - 1
    ensures tasks[i].end <= tasks[|tasks| - 1].start
    decreases |tasks| - i
  {
    if i + 1 < |tasks| - 1 {
      EndsBefore(tasks, from, to, i + 1);
    }
  }

  lemma {:induction false} PoolFits(workers: seq<seq<Task>>, from: real, to: real)
    requires forall w :: 0 <= w < |workers| ==> RunsWithin(workers[w], from, to)
    requires from <= to
    ensures PoolMs(workers) <= |workers| * Millis(to - from)
  {
    FloorGrows(0.0, to - from);
    if workers != [] {
      hide Millis, RunsWithin;
      var front := workers[..|workers| - 1];
      PoolFits(front, from, to);
      WorkerFits(workers[|workers| - 1], from, to);
      assert |workers| * Millis(to - from) == |front| * Millis(to - from) + Millis(to - from);
    }
  }

  /** The validators' test on the summed durations, with the version probe first where
      there is one. */
  predicate DurationAccepted(sum: int, spanMs: int, parallel: int) {
    sum <= spanMs * parallel + 1000
  }

  /** For every schedule of any number of tasks on at most `parallel` workers, after a
      probe that ended at `ready` and inside the measured span: the truncated durations
      sum to at most `parallel` times the truncated span. The slack the validators
      grant is never needed, and no honest schedule is refused. */
  lemma {:induction false} HonestSchedulesAccepted(workers: seq<seq<Task>>, parallel: int, ready: real, span: real)
    requires 0.0 <= ready <= span && |workers| <= parallel && 1 <= parallel
    requires forall w :: 0 <= w < |workers| ==> RunsWithin(workers[w], ready, span)
    ensures Millis(ready) + PoolMs(workers) <= parallel * Millis(span)
    ensures DurationAccepted(Millis(ready) + PoolMs(workers), Millis(span), parallel)
  {
    PoolFits(workers, ready, span);
    FloorsAdd(ready, span - ready);
    FloorGrows(0.0, ready);
    FloorGrows(0.0, span - ready);
    Spread(|workers|, parallel, Millis(ready), Millis(span - ready), Millis(span));
  }

  lemma {:induction false} Spread(workers: int, parallel: int, probe: int, pool: int, span: int)
    requires 0 <= workers <= parallel && 1 <= parallel && 0 <= probe && 0 <= pool && probe + pool <= span
    ensures probe + workers * pool <= parallel * span
  {
    assert workers * pool <= parallel * pool by { Scale(workers, parallel, pool); }
    assert parallel * pool + parallel * probe == parallel * (pool + probe);
    assert parallel * (pool + probe) <= parallel * span by { Scale(pool + probe, span, parallel); }
    assert probe <= parallel * probe by { Scale(1, parallel, probe); }
  }

  lemma {:induction false} Scale(a: int, b: int, c: int)
    requires a <= b && 0 <= c
    ensures a * c <= b * c && c * a <= c * b
  {}

  /** The bound is the best one: `parallel` workers busy for whole milliseconds reach it. */
  lemma {:induction false} BoundIsReached(parallel: nat, ms: nat)
    ensures var busy := seq(parallel, _ => [Task(0.0, ms as real / 1000.0)]);
            PoolMs(busy) == parallel * Millis(ms as real / 1000.0) && Millis(ms as real / 1000.0) == ms
  {
    var one := [Task(0.0, ms as real / 1000.0)];
    assert one[..0] == [];
    assert WorkerMs(one) == ms;
    if parallel > 0 {
      BoundIsReached(parallel - 1, ms);
      var busy := seq(parallel, _ => one);
      assert busy[..parallel - 1] == seq(parallel - 1, _ => one);
    }
  }

  function Sum(durations: seq<int>): int {
    if durations == [] then 0 else Sum(durations[..|durations| - 1]) + durations[|durations| - 1]
  }

  /** The accumulation the validators run over their records. */
  method CheckDurations(probe: int, durations: seq<int>, spanMs: int, parallel: int) returns (ok: bool)
    ensures ok <==> DurationAccepted(probe + Sum(durations), spanMs, parallel)
  {
    var total := probe;
    var i := 0;
    while i < |durations|
      invariant 0 <= i <= |durations| && total == probe + Sum(durations[..i])
    {
      assert durations[..i + 1][..i] == durations[..i];
      total := total + durations[i];
      i := i + 1;
    }
    assert durations[..i] == durations;
    ok := total <= spanMs * parallel + 1000;
  }
}
