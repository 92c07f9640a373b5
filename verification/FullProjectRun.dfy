/** Executing a step plan: rows filled in place, a table of what succeeded, early stops. */
module FullProjectRun {
  import opened Results
  import opened FullProjectSteps

  /** One recorded step; a row starts out as not attempted. */
  datatype Row = Row(attempted: bool, exitCode: Option<int>, timedOut: bool, truncated: bool, artifacts: nat)

  const IDLE := Row(false, None, false, false, 0)

  datatype ArtifactRead = ReadRaised | Unreadable | ReadBack(truncated: bool)

  /** What happens when a step gets its turn: an exception before it runs, missing input,
      a native command and its artifacts read back, or a controller procedure. */
  datatype Outcome =
    | Raised
    | InputMissing
    | Native(exitCode: int, timedOut: bool, truncated: bool, fetches: seq<ArtifactRead>)
    | Controller(error: bool, interrupted: bool, outputTruncated: bool)

  predicate Good(row: Row) {
    row.attempted && row.exitCode == Some(0) && !row.timedOut && !row.truncated
  }

  /** The row a turn leaves, whether the step counts as successful, and whether the run
      stops there. */
  datatype Turn = Turn(row: Row, succeeded: bool, stops: bool)

  /** Reading artifacts back: a truncated one spoils the row, an exception ends the run. */
  function ReadArtifacts(row: Row, succeeded: bool, fetches: seq<ArtifactRead>): Turn
    decreases |fetches|
  {
    if fetches == [] then Turn(row, succeeded, false)
    else
      match fetches[0]
      case ReadRaised => Turn(row, succeeded, true)
      case Unreadable => ReadArtifacts(row, succeeded, fetches[1..])
      case ReadBack(truncated) =>
        ReadArtifacts(row.(truncated := row.truncated || truncated, artifacts := row.artifacts + 1), succeeded && !truncated, fetches[1..])
  }

  function TakeTurn(ready: bool, o: Outcome): Turn {
    if !ready then Turn(IDLE, false, false)
    else
      match o
      case Raised => Turn(IDLE, false, true)
      case InputMissing => Turn(IDLE, false, false)
      case Controller(error, interrupted, truncated) =>
        Turn(Row(true, Some(0), false, truncated, 0), !error && !truncated, truncated || interrupted)
      case Native(exitCode, timedOut, truncated, fetches) =>
        var row := Row(true, Some(exitCode), timedOut, truncated, 0);
        if timedOut || truncated then Turn(row, false, true)
        else ReadArtifacts(row, exitCode == 0, fetches)
  }

  type Successes = map<StepId, bool>

  predicate Succeeded(good: Successes, id: StepId) {
    id in good && good[id]
  }

  predicate Ready(good: Successes, spec: Spec) {
    forall n :: n in spec.needs ==> Succeeded(good, n)
  }

  /** The rows of the remaining steps. */
  function Rows(specs: seq<Spec>, outcomes: StepId -> Outcome, good: Successes): seq<Row> {
    if specs == [] then []
    else
      var turn := TakeTurn(Ready(good, specs[0]), outcomes(specs[0].id));
      [turn.row] + (if turn.stops then Idle(|specs| - 1) else Rows(specs[1..], outcomes, good[specs[0].id := turn.succeeded]))
  }

  function Idle(n: nat): (r: seq<Row>)
    ensures |r| == n && forall i :: 0 <= i < n ==> r[i] == IDLE
  {
    if n == 0 then [] else [IDLE] + Idle(n - 1)
  }

  lemma {:induction false} RowsAt(specs: seq<Spec>, outcomes: StepId -> Outcome, good: Successes, i: nat)
    requires i < |specs|
    ensures var turn := TakeTurn(Ready(good, specs[i]), outcomes(specs[i].id));
            Rows(specs[i..], outcomes, good)
              == [turn.row] + (if turn.stops then Idle(|specs| - i - 1) else Rows(specs[i + 1..], outcomes, good[specs[i].id := turn.succeeded]))
  {
    hide TakeTurn, Ready;
    assert specs[i..][0] == specs[i] && specs[i..][1..] == specs[i + 1..];
  }

  lemma {:induction false} NoRows(specs: seq<Spec>, outcomes: StepId -> Outcome, good: Successes)
    ensures Rows(specs[|specs|..], outcomes, good) == []
  {}

  /** The rows so far, the row of this turn, and idle rows after it. */
  lemma {:induction false} Filled(before: seq<Row>, done: seq<Row>, n: nat, row: Row)
    requires before == done + Idle(n) && n > 0
    ensures before[|done| := row] == done + [row] + Idle(n - 1)
  {}

  /** The run: a row per step, filled in as steps take their turns. */
  method RunSteps(specs: seq<Spec>, outcomes: StepId -> Outcome) returns (rows: array<Row>)
    ensures fresh(rows) && rows[..] == Rows(specs, outcomes, map[])
  {
    hide Rows, TakeTurn, Ready, Idle;
    rows := new Row[|specs|](_ => IDLE);
    var successful: Successes := map[];
    var i := 0;
    ghost var done: seq<Row> := [];
    assert specs[0..] == specs && [] + Rows(specs, outcomes, map[]) == Rows(specs, outcomes, map[]);
    while i < |specs|
      invariant 0 <= i <= |specs| == rows.Length && fresh(rows)
      invariant rows[..] == done + Idle(|specs| - i) && |done| == i
      invariant Rows(specs, outcomes, map[]) == done + Rows(specs[i..], outcomes, successful)
    {
      var turn := TakeTurn(Ready(successful, specs[i]), outcomes(specs[i].id));
      RowsAt(specs, outcomes, successful, i);
      Filled(rows[..], done, |specs| - i, turn.row);
      ghost var before := rows[..];
      rows[i] := turn.row;
      assert rows[..] == before[i := turn.row];
      done := done + [turn.row];
      if turn.stops { return; }
      successful := successful[specs[i].id := turn.succeeded];
      i := i + 1;
    }
    NoRows(specs, outcomes, successful);
    assert rows[..] == done;
  }

  // ---------- gating ----------

  lemma {:induction false} ReadsKeep(row: Row, succeeded: bool, fetches: seq<ArtifactRead>)
    requires succeeded ==> Good(row)
    ensures var t := ReadArtifacts(row, succeeded, fetches);
            && (t.succeeded ==> Good(t.row)) && t.row.attempted == row.attempted
    decreases |fetches|
  {
    if fetches != [] && !fetches[0].ReadRaised? {
      match fetches[0]
      case Unreadable => ReadsKeep(row, succeeded, fetches[1..]);
      case ReadBack(truncated) =>
        ReadsKeep(row.(truncated := row.truncated || truncated, artifacts := row.artifacts + 1), succeeded && !truncated, fetches[1..]);
    }
  }

  lemma {:induction false} TurnKeeps(ready: bool, o: Outcome)
    ensures var t := TakeTurn(ready, o);
            (t.succeeded ==> Good(t.row)) && (t.row.attempted ==> ready)
  {
    if ready && o.Native? && !o.timedOut && !o.truncated {
      ReadsKeep(Row(true, Some(o.exitCode), false, false, 0), o.exitCode == 0, o.fetches);
    }
  }

  lemma {:induction false} RowsLength(specs: seq<Spec>, outcomes: StepId -> Outcome, good: Successes)
    ensures |Rows(specs, outcomes, good)| == |specs|
  {
    if specs != [] {
      var turn := TakeTurn(Ready(good, specs[0]), outcomes(specs[0].id));
      if !turn.stops {
        RowsLength(specs[1..], outcomes, good[specs[0].id := turn.succeeded]);
      }
    }
  }

  /** Step `to` is needed, directly or through others, by step `from`. */
  ghost predicate DependsOn(specs: seq<Spec>, from: nat, to: nat)
    requires from < |specs|
    decreases from
  {
    exists k: nat :: k < from && specs[k].id in specs[from].needs && (k == to || DependsOn(specs, k, to))
  }

  /** The table knows only good rows of earlier steps. */
  ghost predicate Backed(good: Successes, specs: seq<Spec>, rows: seq<Row>, n: nat) {
    && n <= |specs| && n <= |rows|
    && forall id :: Succeeded(good, id) ==> exists k :: 0 <= k < n && specs[k].id == id && Good(rows[k])
  }

  /** Along the run, whatever is attempted has all its direct needs good. */
  lemma {:induction false} NeedsGood(specs: seq<Spec>, outcomes: StepId -> Outcome, good: Successes, n: nat, done: seq<Row>, i: nat)
    requires |done| == n && Backed(good, specs, done, n) && n <= i < |specs|
    requires forall a, b :: 0 <= a < b < |specs| ==> specs[a].id != specs[b].id
    ensures var rows := done + Rows(specs[n..], outcomes, good);
            && |rows| == |specs|
            && (rows[i].attempted ==> forall need :: need in specs[i].needs ==> exists k :: 0 <= k < i && specs[k].id == need && Good(rows[k]))
    decreases |specs| - n
  {
    hide Good, TakeTurn;
    RowsLength(specs[n..], outcomes, good);
    var turn := TakeTurn(Ready(good, specs[n]), outcomes(specs[n].id));
    TurnKeeps(Ready(good, specs[n]), outcomes(specs[n].id));
    var rows := done + Rows(specs[n..], outcomes, good);
    assert specs[n..][0] == specs[n] && specs[n..][1..] == specs[n + 1..];
    assert rows[n] == turn.row;
    if i == n {
      if rows[n].attempted {
        forall need | need in specs[n].needs ensures exists k :: 0 <= k < n && specs[k].id == need && Good(rows[k]) {
          assert Succeeded(good, need);
          var k :| 0 <= k < n && specs[k].id == need && Good(done[k]);
          assert rows[k] == done[k];
        }
      }
    } else if turn.stops {
      assert rows[i] == Idle(|specs| - n - 1)[i - n - 1];
    } else {
      var more := good[specs[n].id := turn.succeeded];
      var next := done + [turn.row];
      MoreBacked(good, specs, done, n, turn);
      NeedsGood(specs, outcomes, more, n + 1, next, i);
      assert next + Rows(specs[n + 1..], outcomes, more) == rows;
    }
  }

  lemma {:induction false} MoreBacked(good: Successes, specs: seq<Spec>, done: seq<Row>, n: nat, turn: Turn)
    requires |done| == n < |specs| && Backed(good, specs, done, n) && (turn.succeeded ==> Good(turn.row))
    ensures Backed(good[specs[n].id := turn.succeeded], specs, done + [turn.row], n + 1)
  {
    hide Good;
    var more, next := good[specs[n].id := turn.succeeded], done + [turn.row];
    forall id | Succeeded(more, id) ensures exists k :: 0 <= k < n + 1 && specs[k].id == id && Good(next[k]) {
      if id == specs[n].id {
        assert next[n] == turn.row;
      } else {
        assert Succeeded(good, id);
        var k :| 0 <= k < n && specs[k].id == id && Good(done[k]);
        assert next[k] == done[k];
      }
    }
  }

  ghost predicate DistinctSteps(specs: seq<Spec>) {
    forall a, b :: 0 <= a < b < |specs| ==> specs[a].id != specs[b].id
  }

  lemma {:induction false} DirectNeedGood(specs: seq<Spec>, outcomes: StepId -> Outcome, i: nat, k: nat)
    requires DistinctSteps(specs) && k < i < |specs| && specs[k].id in specs[i].needs
    ensures |Rows(specs, outcomes, map[])| == |specs|
    ensures Rows(specs, outcomes, map[])[i].attempted ==> Good(Rows(specs, outcomes, map[])[k])
  {
    hide Rows, Good;
    NeedsGood(specs, outcomes, map[], 0, [], i);
    assert specs[0..] == specs;
    var rows := Rows(specs, outcomes, map[]);
    assert [] + rows == rows;
    if rows[i].attempted {
      var m :| 0 <= m < i && specs[m].id == specs[k].id && Good(rows[m]);
      assert m == k;
    }
  }

  /** In every run, under any outcomes and early stops, everything an attempted step needs
      was attempted before it, exited 0, and was neither timed out nor truncated. */
  lemma {:induction false} AttemptedNeedsGood(specs: seq<Spec>, outcomes: StepId -> Outcome, i: nat, j: nat)
    requires DistinctSteps(specs) && i < |specs| && DependsOn(specs, i, j)
    ensures j < i && |Rows(specs, outcomes, map[])| == |specs|
    ensures Rows(specs, outcomes, map[])[i].attempted ==> Good(Rows(specs, outcomes, map[])[j])
    decreases i
  {
    hide Rows, DistinctSteps;
    var k: nat :| k < i && specs[k].id in specs[i].needs && (k == j || DependsOn(specs, k, j));
    DirectNeedGood(specs, outcomes, i, k);
    if k != j {
      AttemptedNeedsGood(specs, outcomes, k, j);
    }
  }

  lemma {:induction false} InOrderDistinct(done: set<StepId>, specs: seq<Spec>)
    requires InOrder(done, specs)
    ensures forall a, b :: 0 <= a < b < |specs| ==> specs[a].id != specs[b].id
    ensures forall a :: 0 <= a < |specs| ==> specs[a].id !in done
    ensures forall a, need :: 0 <= a < |specs| && need in specs[a].needs ==> need in done || exists b :: 0 <= b < a && specs[b].id == need
    decreases |specs|
  {
    if specs != [] {
      InOrderDistinct(done + {specs[0].id}, specs[1..]);
      forall a, b | 0 <= a < b < |specs| ensures specs[a].id != specs[b].id {
        assert specs[b] == specs[1..][b - 1];
        if a > 0 {
          assert specs[a] == specs[1..][a - 1];
        }
      }
      forall a, need | 0 <= a < |specs| && need in specs[a].needs ensures need in done || exists b :: 0 <= b < a && specs[b].id == need {
        if a > 0 {
          assert specs[a] == specs[1..][a - 1];
          if need !in done + {specs[0].id} {
            var b :| 0 <= b < a - 1 && specs[1..][b].id == need;
            assert specs[b + 1].id == need;
          }
        }
      }
    }
  }

  /** The gate holds for the plan of every configuration. */
  lemma {:induction false} PlannedRunsAreGated(c: Configuration, outcomes: StepId -> Outcome, i: nat, j: nat)
    requires DistinctNames(c.sanitizers) && i < |Steps(c)| && DependsOn(Steps(c), i, j)
    ensures j < i && |Rows(Steps(c), outcomes, map[])| == |Steps(c)|
    ensures Rows(Steps(c), outcomes, map[])[i].attempted ==> Good(Rows(Steps(c), outcomes, map[])[j])
  {
    hide Steps, Rows;
    PlanInOrder(c);
    InOrderDistinct({}, Steps(c));
    AttemptedNeedsGood(Steps(c), outcomes, i, j);
  }

  /** Every need of the plan is an earlier step of the plan, so the gate is never waiting
      for something that is not planned. */
  lemma {:induction false} NeedsArePlanned(c: Configuration, i: nat, need: StepId)
    requires DistinctNames(c.sanitizers) && i < |Steps(c)| && need in Steps(c)[i].needs
    ensures exists k :: 0 <= k < i && Steps(c)[k].id == need && DependsOn(Steps(c), i, k)
  {
    hide Steps, InOrder;
    PlanInOrder(c);
    var specs, none: set<StepId> := Steps(c), {};
    InOrderDistinct(none, specs);
    assert need in specs[i].needs && need !in none;
    var k :| 0 <= k < i && specs[k].id == need;
    assert DependsOn(specs, i, k);
  }
}
