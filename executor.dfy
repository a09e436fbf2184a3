/**
 * Running a plan. Each planned migration runs its statements, trimmed of a
 * trailing newline, space and semicolon, then inserts its record (up) or
 * deletes it (down), inside a transaction unless the migration disables
 * transactions. The run stops at the first failure and reports how many
 * migrations it completed. Skipping records the planned migrations without
 * running any statement.
 *
 * The database is abstract: the ids in the migration table, in row order,
 * and the statements whose effects it keeps. Which operation fails, and
 * with what error, is an oracle given as a parameter.
 */
module Executor {
  import opened Wrappers
  import opened Ordering
  import opened Migrations
  import opened Planner

  // ---------------------------------------------------------------------------
  // Statement trimming
  // ---------------------------------------------------------------------------

  /** `s` without `suffix` at its end, or `s` itself when it does not end with it. */
  function TrimSuffix(s: string, suffix: string): (r: string)
    ensures HasSuffix(s, suffix) ==> r + suffix == s
    ensures !HasSuffix(s, suffix) ==> r == s
  {
    if HasSuffix(s, suffix) then s[..|s| - |suffix|] else s
  }

  /** A statement as it is sent to the database: at most one "\n", then one " ", then one ";" removed from its end. */
  function TrimStatement(stmt: string): string {
    TrimSuffix(TrimSuffix(TrimSuffix(stmt, "\n"), " "), ";")
  }

  /** Trimming keeps a prefix of the statement and drops at most three characters. */
  lemma TrimStatementPrefix(stmt: string)
    ensures HasPrefix(stmt, TrimStatement(stmt))
    ensures |stmt| - 3 <= |TrimStatement(stmt)| <= |stmt|
  {
    var a := TrimSuffix(stmt, "\n");
    var b := TrimSuffix(a, " ");
    var c := TrimSuffix(b, ";");
    assert HasPrefix(stmt, a) && HasPrefix(a, b) && HasPrefix(b, c);
    assert stmt[..|c|] == a[..|c|] == b[..|c|];
  }

  /** Trimming undoes a terminator written as ";", " " and "\n", whatever the statement is. */
  lemma TrimStatementRoundTrip(q: string)
    ensures TrimStatement(q + "; \n") == q
  {
    assert HasSuffix(q + "; \n", "\n") && (q + "; \n")[..|q| + 2] == q + "; ";
    assert HasSuffix(q + "; ", " ") && (q + "; ")[..|q| + 1] == q + ";";
    assert HasSuffix(q + ";", ";") && (q + ";")[..|q|] == q;
  }

  /** A statement that ends in none of the three characters is sent unchanged. */
  lemma TrimStatementUnchanged(q: string)
    requires |q| == 0 || q[|q| - 1] !in {'\n', ' ', ';'}
    ensures TrimStatement(q) == q
  {
    if |q| > 0 {
      assert !HasSuffix(q, "\n") && !HasSuffix(q, " ") && !HasSuffix(q, ";") by {
        assert q[|q| - 1..] == [q[|q| - 1]];
      }
    }
  }

  /** Only one of each character goes, in that order: a space before the semicolon stays. */
  lemma TrimStatementExamples()
    ensures TrimStatement("SELECT 1;;") == "SELECT 1;"
    ensures TrimStatement("SELECT 1 ;\n") == "SELECT 1 "
    ensures TrimStatement("SELECT 1\n\n") == "SELECT 1\n"
  {
    assert HasSuffix("SELECT 1;;", ";") && !HasSuffix("SELECT 1;;", "\n") && !HasSuffix("SELECT 1;;", " ");
    assert "SELECT 1;;"[..9] == "SELECT 1;";
    assert HasSuffix("SELECT 1 ;\n", "\n") && "SELECT 1 ;\n"[..10] == "SELECT 1 ;";
    assert !HasSuffix("SELECT 1 ;", " ") && HasSuffix("SELECT 1 ;", ";") && "SELECT 1 ;"[..9] == "SELECT 1 ";
    assert HasSuffix("SELECT 1\n\n", "\n") && "SELECT 1\n\n"[..9] == "SELECT 1\n";
    assert !HasSuffix("SELECT 1\n", " ") && !HasSuffix("SELECT 1\n", ";");
  }

  /** Every statement of `qs`, trimmed. */
  function Trimmed(qs: seq<string>): (r: seq<string>)
    ensures |r| == |qs|
  {
    if |qs| == 0 then [] else [TrimStatement(qs[0])] + Trimmed(qs[1..])
  }

  // ---------------------------------------------------------------------------
  // The abstract database
  // ---------------------------------------------------------------------------

  /**
   * Which database operation fails, and with what error: starting a
   * transaction, executing a statement, inserting or deleting a record, and
   * committing, each keyed by the migration id (and the statement). An
   * insert also sees the rows the table holds, since the table is keyed on
   * the id: this is where a duplicate-key failure comes from. The other four
   * answers depend on the id and the statement alone, not on the database's
   * state, so a statement cannot fail because of an earlier statement's
   * effect.
   */
  datatype Oracle = Oracle(
    begin: string -> Option<string>,
    exec: (string, string) -> Option<string>,
    insert: (string, seq<string>) -> Option<string>,
    delete: string -> Option<string>,
    commit: string -> Option<string>)

  /** An oracle under which nothing fails. */
  ghost predicate NeverFails(oracle: Oracle) {
    (forall id :: oracle.begin(id).None?) &&
    (forall id, stmt :: oracle.exec(id, stmt).None?) &&
    (forall id, rows :: oracle.insert(id, rows).None?) &&
    (forall id :: oracle.delete(id).None?) &&
    (forall id :: oracle.commit(id).None?)
  }

  /** The ids in the migration table, in row order, and the statements whose effects the database keeps. */
  datatype DbState = DbState(records: seq<string>, effects: seq<string>)

  /** The rows left after deleting every row with id `id`. */
  function Without(records: seq<string>, id: string): (r: seq<string>)
  {
    if |records| == 0 then []
    else if records[0] == id then Without(records[1..], id)
    else [records[0]] + Without(records[1..], id)
  }

  lemma {:induction false} WithoutMeans(records: seq<string>, id: string, x: string)
    ensures x in Without(records, id) <==> x in records && x != id
    decreases |records|
  {
    if |records| > 0 {
      WithoutMeans(records[1..], id, x);
      assert records == [records[0]] + records[1..];
    }
  }

  /** Why a run stops: the plan could not be made, a step failed, or the target version was negative. */
  datatype ExecError =
    | PlanFailed(failure: PlanFailure)
    | TxError(migrationId: string, cause: string)
    | NegativeVersion(version: int)

  /** The error's text; a walk over a non-numeric id has none, since the source panics there. */
  function ErrorText(e: ExecError): string
    requires !(e.PlanFailed? && e.failure.Panic?)
  {
    match e
    case PlanFailed(f) => if f.PlanError? then PlanErrorText(f) else f.message
    case TxError(id, cause) => cause + " handling " + id
    case NegativeVersion(v) => "target version " + IntText(v) + " should not be negative"
  }

  lemma TxErrorText()
    ensures ErrorText(TxError("123", "syntax error")) == "syntax error handling 123"
  {
  }

  lemma NegativeVersionText()
    ensures ErrorText(NegativeVersion(-1)) == "target version -1 should not be negative"
  {
    assert Decimal(1) == ['1'];
    assert IntText(-1) == "-1";
    assert "target version " + "-1" + " should not be negative" == "target version -1 should not be negative";
  }

  lemma UnknownMigrationText()
    ensures ErrorText(PlanFailed(PlanError("3", UnknownMessage))) ==
      "Unable to create migration plan because of 3: unknown migration in database"
  {
  }

  // ---------------------------------------------------------------------------
  // One step
  // ---------------------------------------------------------------------------

  /** Where a sequence of statements leaves the database, and the error that stopped it. */
  datatype Progress = Progress(state: DbState, error: Option<string>)

  /** The statements run one by one; the first failing one stops the run, the ones before it keep their effects. */
  function RunStatements(s: DbState, id: string, queries: seq<string>, oracle: Oracle): Progress
    decreases |queries|
  {
    if |queries| == 0 then Progress(s, None)
    else
      var stmt := TrimStatement(queries[0]);
      if oracle.exec(id, stmt).Some? then Progress(s, oracle.exec(id, stmt))
      else RunStatements(DbState(s.records, s.effects + [stmt]), id, queries[1..], oracle)
  }

  /** The statement run stopped at statement `k`, which failed, after the `k` statements before it took effect. */
  ghost predicate FailsAt(s: DbState, p: Progress, id: string, queries: seq<string>, oracle: Oracle, k: int) {
    0 <= k < |queries| && p.error == oracle.exec(id, TrimStatement(queries[k])) &&
    p.state.effects == s.effects + Trimmed(queries)[..k] &&
    forall j :: 0 <= j < k ==> oracle.exec(id, TrimStatement(queries[j])).None?
  }

  /**
   * Running statements never touches the migration table. Without a failure
   * every statement takes effect, trimmed and in order; a failure at
   * statement `k` keeps the effects of exactly the `k` statements before it.
   */
  lemma RunStatementsMeans(s: DbState, id: string, queries: seq<string>, oracle: Oracle)
    ensures var p := RunStatements(s, id, queries, oracle);
      p.state.records == s.records &&
      (p.error.None? <==> forall k :: 0 <= k < |queries| ==> oracle.exec(id, TrimStatement(queries[k])).None?) &&
      (p.error.None? ==> p.state.effects == s.effects + Trimmed(queries))
    ensures var p := RunStatements(s, id, queries, oracle);
      p.error.Some? ==> exists k :: FailsAt(s, p, id, queries, oracle, k)
  {
    RunStatementsCompletes(s, id, queries, oracle);
    RunStatementsStops(s, id, queries, oracle);
  }

  lemma RunStatementsCompletes(s: DbState, id: string, queries: seq<string>, oracle: Oracle)
    ensures var p := RunStatements(s, id, queries, oracle);
      p.state.records == s.records &&
      (p.error.None? <==> forall k :: 0 <= k < |queries| ==> oracle.exec(id, TrimStatement(queries[k])).None?) &&
      (p.error.None? ==> p.state.effects == s.effects + Trimmed(queries))
  {
    RunStatementsKeepRecords(s, id, queries, oracle);
    RunStatementsSucceed(s, id, queries, oracle);
    RunStatementsEffects(s, id, queries, oracle);
  }

  lemma {:induction false} RunStatementsKeepRecords(s: DbState, id: string, queries: seq<string>, oracle: Oracle)
    ensures RunStatements(s, id, queries, oracle).state.records == s.records
    decreases |queries|
  {
    if |queries| > 0 {
      var stmt := TrimStatement(queries[0]);
      if oracle.exec(id, stmt).None? {
        RunStatementsKeepRecords(DbState(s.records, s.effects + [stmt]), id, queries[1..], oracle);
      }
    }
  }

  lemma {:induction false} RunStatementsSucceed(s: DbState, id: string, queries: seq<string>, oracle: Oracle)
    ensures RunStatements(s, id, queries, oracle).error.None? <==>
      forall k :: 0 <= k < |queries| ==> oracle.exec(id, TrimStatement(queries[k])).None?
    decreases |queries|
  {
    if |queries| > 0 {
      var stmt := TrimStatement(queries[0]);
      if oracle.exec(id, stmt).None? {
        var rest := queries[1..];
        RunStatementsSucceed(DbState(s.records, s.effects + [stmt]), id, rest, oracle);
        assert forall k :: 1 <= k < |queries| ==> queries[k] == rest[k - 1];
      }
    }
  }

  lemma {:induction false} RunStatementsEffects(s: DbState, id: string, queries: seq<string>, oracle: Oracle)
    ensures var p := RunStatements(s, id, queries, oracle);
      p.error.None? ==> p.state.effects == s.effects + Trimmed(queries)
    decreases |queries|
  {
    if |queries| == 0 {
      assert s.effects + [] == s.effects;
    } else {
      var stmt := TrimStatement(queries[0]);
      if oracle.exec(id, stmt).None? {
        var rest := queries[1..];
        RunStatementsEffects(DbState(s.records, s.effects + [stmt]), id, rest, oracle);
        assert Trimmed(queries) == [stmt] + Trimmed(rest);
        EffectsAppend(s.effects, [stmt], Trimmed(rest));
      }
    }
  }

  /** A failure at statement `k` of the tail is a failure at statement `k + 1` of the whole list. */
  lemma FailsAtShift(s: DbState, p: Progress, id: string, queries: seq<string>, oracle: Oracle, k: int)
    requires |queries| > 0 && oracle.exec(id, TrimStatement(queries[0])).None?
    requires FailsAt(DbState(s.records, s.effects + [TrimStatement(queries[0])]), p, id, queries[1..], oracle, k)
    ensures FailsAt(s, p, id, queries, oracle, k + 1)
  {
    var rest := queries[1..];
    var t := TrimStatement(queries[0]);
    TrimmedPrefix(queries, k);
    EffectsAppend(s.effects, [t], Trimmed(rest)[..k]);
    assert p.state.effects == s.effects + Trimmed(queries)[..k + 1];
    assert queries[k + 1] == rest[k];
    assert forall j :: 1 <= j <= k ==> queries[j] == rest[j - 1];
  }

  lemma TrimmedPrefix(queries: seq<string>, k: nat)
    requires k < |queries|
    ensures Trimmed(queries)[..k + 1] == [TrimStatement(queries[0])] + Trimmed(queries[1..])[..k]
  {
    assert Trimmed(queries) == [TrimStatement(queries[0])] + Trimmed(queries[1..]);
  }

  lemma {:induction false} RunStatementsStops(s: DbState, id: string, queries: seq<string>, oracle: Oracle)
    ensures var p := RunStatements(s, id, queries, oracle);
      p.error.Some? ==> exists k :: FailsAt(s, p, id, queries, oracle, k)
    decreases |queries|
  {
    if |queries| > 0 {
      var stmt := TrimStatement(queries[0]);
      if oracle.exec(id, stmt).Some? {
        assert Trimmed(queries)[..0] == [];
        assert s.effects + [] == s.effects;
        assert FailsAt(s, RunStatements(s, id, queries, oracle), id, queries, oracle, 0);
      } else {
        var s' := DbState(s.records, s.effects + [stmt]);
        var rest := queries[1..];
        RunStatementsStops(s', id, rest, oracle);
        var p := RunStatements(s', id, rest, oracle);
        if p.error.Some? {
          var k :| FailsAt(s', p, id, rest, oracle, k);
          FailsAtShift(s, p, id, queries, oracle, k);
        }
      }
    }
  }

  /** The bookkeeping after the statements: up inserts the migration's record, down deletes it. */
  function RecordStep(s: DbState, id: string, dir: Direction, oracle: Oracle): Progress {
    match dir
    case Up =>
      if oracle.insert(id, s.records).Some? then Progress(s, oracle.insert(id, s.records))
      else Progress(DbState(s.records + [id], s.effects), None)
    case Down =>
      if oracle.delete(id).Some? then Progress(s, oracle.delete(id))
      else Progress(DbState(Without(s.records, id), s.effects), None)
  }

  /** Where one step leaves the database, and the error that ended it. */
  datatype Step = Step(state: DbState, error: Option<ExecError>)

  /**
   * One planned migration. In a transaction, any failure (of the statements,
   * the record or the commit) leaves the database as it was; without one,
   * the statements that ran before the failure keep their effects.
   */
  function StepOf(s: DbState, p: PlannedMigration, dir: Direction, oracle: Oracle): Step {
    var id := p.migration.id;
    var tx := !p.disableTransaction;
    if tx && oracle.begin(id).Some? then Step(s, Some(TxError(id, oracle.begin(id).value)))
    else
      var run := RunStatements(s, id, p.queries, oracle);
      if run.error.Some? then Step(if tx then s else run.state, Some(TxError(id, run.error.value)))
      else
        var rec := RecordStep(run.state, id, dir, oracle);
        if rec.error.Some? then Step(if tx then s else run.state, Some(TxError(id, rec.error.value)))
        else if tx && oracle.commit(id).Some? then Step(s, Some(TxError(id, oracle.commit(id).value)))
        else Step(rec.state, None)
  }

  /** A failed step leaves the migration table as it was, and a failed transactional step leaves everything as it was. */
  lemma StepFailure(s: DbState, p: PlannedMigration, dir: Direction, oracle: Oracle)
    requires StepOf(s, p, dir, oracle).error.Some?
    ensures StepOf(s, p, dir, oracle).state.records == s.records
    ensures !p.disableTransaction ==> StepOf(s, p, dir, oracle).state == s
    ensures StepOf(s, p, dir, oracle).error.value.TxError? && StepOf(s, p, dir, oracle).error.value.migrationId == p.migration.id
  {
    RunStatementsMeans(s, p.migration.id, p.queries, oracle);
  }

  /**
   * Without a transaction, a failing statement stops the step with the
   * statements before it in effect and nothing recorded.
   */
  lemma StepWithoutTransactionFails(s: DbState, p: PlannedMigration, dir: Direction, oracle: Oracle)
    requires p.disableTransaction
    requires RunStatements(s, p.migration.id, p.queries, oracle).error.Some?
    ensures var step := StepOf(s, p, dir, oracle);
      step.error.Some? && step.state.records == s.records &&
      exists k :: FailsAt(s, Progress(step.state, RunStatements(s, p.migration.id, p.queries, oracle).error),
                          p.migration.id, p.queries, oracle, k)
  {
    RunStatementsMeans(s, p.migration.id, p.queries, oracle);
  }

  /**
   * A completed step has run all its statements, trimmed and in order, and
   * recorded the migration: up appends its id to the table, down removes
   * every row with its id.
   */
  lemma StepSuccess(s: DbState, p: PlannedMigration, dir: Direction, oracle: Oracle)
    requires StepOf(s, p, dir, oracle).error.None?
    ensures StepOf(s, p, dir, oracle).state.effects == s.effects + Trimmed(p.queries)
    ensures dir == Up ==> StepOf(s, p, dir, oracle).state.records == s.records + [p.migration.id]
    ensures dir == Down ==> StepOf(s, p, dir, oracle).state.records == Without(s.records, p.migration.id)
  {
    RunStatementsMeans(s, p.migration.id, p.queries, oracle);
  }

  /** A step completes exactly when none of the operations it performs fails. */
  lemma StepCompletes(s: DbState, p: PlannedMigration, dir: Direction, oracle: Oracle)
    ensures var id := p.migration.id;
      var tx := !p.disableTransaction;
      StepOf(s, p, dir, oracle).error.None? <==>
        (tx ==> oracle.begin(id).None? && oracle.commit(id).None?) &&
        (forall k :: 0 <= k < |p.queries| ==> oracle.exec(id, TrimStatement(p.queries[k])).None?) &&
        (dir == Up ==> oracle.insert(id, s.records).None?) && (dir == Down ==> oracle.delete(id).None?)
  {
    RunStatementsMeans(s, p.migration.id, p.queries, oracle);
  }

  /**
   * In a down plan, a catch-up entry carries the migration's up statements
   * but is booked with the plan's direction: its statements run and its
   * (absent) record is deleted, so the migration ends up applied but not
   * recorded.
   */
  lemma DownCatchupUnrecorded(s: DbState, m: Migration, oracle: Oracle)
    requires StepOf(s, Planned(m, Up), Down, oracle).error.None?
    ensures StepOf(s, Planned(m, Up), Down, oracle).state.effects == s.effects + Trimmed(m.up)
    ensures m.id !in StepOf(s, Planned(m, Up), Down, oracle).state.records
  {
    StepSuccess(s, Planned(m, Up), Down, oracle);
    WithoutMeans(s.records, m.id, m.id);
  }

  // ---------------------------------------------------------------------------
  // A whole plan
  // ---------------------------------------------------------------------------

  /** Where a run leaves the database, how many steps it completed, and the error that stopped it. */
  datatype Outcome = Outcome(state: DbState, count: nat, error: Option<ExecError>)

  function Shifted(o: Outcome, n: nat): Outcome {
    Outcome(o.state, o.count + n, o.error)
  }

  /** The plan's steps in order, stopping at the first one that fails. */
  function ApplyOf(s: DbState, plan: seq<PlannedMigration>, dir: Direction, oracle: Oracle): (o: Outcome)
    ensures o.count <= |plan|
    decreases |plan|
  {
    if |plan| == 0 then Outcome(s, 0, None)
    else
      var step := StepOf(s, plan[0], dir, oracle);
      if step.error.Some? then Outcome(step.state, 0, step.error)
      else Shifted(ApplyOf(step.state, plan[1..], dir, oracle), 1)
  }

  /** One step of the run from step `i` of the plan. */
  lemma ApplyOfAt(s: DbState, plan: seq<PlannedMigration>, i: nat, dir: Direction, oracle: Oracle)
    requires i < |plan|
    ensures var step := StepOf(s, plan[i], dir, oracle);
      ApplyOf(s, plan[i..], dir, oracle) ==
        if step.error.Some? then Outcome(step.state, 0, step.error)
        else Shifted(ApplyOf(step.state, plan[i + 1..], dir, oracle), 1)
  {
    assert plan[i..][0] == plan[i];
    assert plan[i..][1..] == plan[i + 1..];
  }

  /** The ids of a plan's migrations, in plan order. */
  function PlanIds(plan: seq<PlannedMigration>): (r: seq<string>)
    ensures |r| == |plan|
  {
    seq(|plan|, k requires 0 <= k < |plan| => plan[k].migration.id)
  }

  lemma PlanIdsCons(plan: seq<PlannedMigration>, n: nat)
    requires n < |plan|
    ensures PlanIds(plan[..n + 1]) == [plan[0].migration.id] + PlanIds(plan[1..][..n])
  {
    assert plan[..n + 1] == [plan[0]] + plan[1..][..n];
  }

  /** The statements a plan runs, trimmed, step after step. */
  function AllStatements(plan: seq<PlannedMigration>): seq<string>
    decreases |plan|
  {
    if |plan| == 0 then [] else Trimmed(plan[0].queries) + AllStatements(plan[1..])
  }

  /**
   * The count is the number of steps completed before the first failure:
   * it is the plan's length exactly when there is no error, and a failure
   * is the failing step's own error, naming its migration.
   */
  lemma {:induction false} ApplyCount(s: DbState, plan: seq<PlannedMigration>, dir: Direction, oracle: Oracle)
    ensures var o := ApplyOf(s, plan, dir, oracle);
      o.count <= |plan| && (o.error.None? <==> o.count == |plan|)
    ensures var o := ApplyOf(s, plan, dir, oracle);
      o.error.Some? ==> o.error.value.TxError? && o.error.value.migrationId == plan[o.count].migration.id
    decreases |plan|
  {
    if |plan| > 0 {
      var step := StepOf(s, plan[0], dir, oracle);
      if step.error.Some? {
        StepFailure(s, plan[0], dir, oracle);
      } else {
        ApplyCount(step.state, plan[1..], dir, oracle);
      }
    }
  }

  /** Up: the table gains the ids of the completed steps, appended in plan order; a failed step adds nothing. */
  lemma {:induction false} ApplyUpRecords(s: DbState, plan: seq<PlannedMigration>, oracle: Oracle)
    ensures var o := ApplyOf(s, plan, Up, oracle);
      o.state.records == s.records + PlanIds(plan[..o.count])
    decreases |plan|
  {
    if |plan| == 0 {
      assert PlanIds([]) == [] && s.records + [] == s.records;
    } else {
      var step := StepOf(s, plan[0], Up, oracle);
      if step.error.Some? {
        StepFailure(s, plan[0], Up, oracle);
        assert PlanIds(plan[..0]) == [] && s.records + [] == s.records;
      } else {
        StepSuccess(s, plan[0], Up, oracle);
        ApplyUpRecords(step.state, plan[1..], oracle);
        var o := ApplyOf(step.state, plan[1..], Up, oracle);
        assert ApplyOf(s, plan, Up, oracle) == Shifted(o, 1);
        UpRecordsShift(s, step.state, o, plan);
      }
    }
  }

  /** The records the tail adds, behind a completed first step, are those the whole plan adds. */
  lemma UpRecordsShift(s: DbState, t: DbState, o: Outcome, plan: seq<PlannedMigration>)
    requires |plan| > 0 && o.count < |plan| && t.records == s.records + [plan[0].migration.id]
    requires o.state.records == t.records + PlanIds(plan[1..][..o.count])
    ensures Shifted(o, 1).state.records == s.records + PlanIds(plan[..o.count + 1])
  {
    PlanIdsCons(plan, o.count);
  }

  /** Down: an id stays in the table exactly when no completed step was a migration with that id. */
  lemma {:induction false} ApplyDownRecords(s: DbState, plan: seq<PlannedMigration>, oracle: Oracle, x: string)
    ensures var o := ApplyOf(s, plan, Down, oracle);
      x in o.state.records <==> x in s.records && x !in PlanIds(plan[..o.count])
    decreases |plan|
  {
    if |plan| > 0 {
      var step := StepOf(s, plan[0], Down, oracle);
      if step.error.Some? {
        StepFailure(s, plan[0], Down, oracle);
        assert PlanIds(plan[..0]) == [];
      } else {
        StepSuccess(s, plan[0], Down, oracle);
        WithoutMeans(s.records, plan[0].migration.id, x);
        ApplyDownRecords(step.state, plan[1..], oracle, x);
        var o := ApplyOf(step.state, plan[1..], Down, oracle);
        assert ApplyOf(s, plan, Down, oracle) == Shifted(o, 1);
        PlanIdsCons(plan, o.count);
      }
    }
  }

  /** A run that completes has run every statement of the plan, trimmed, in plan order. */
  lemma {:induction false} ApplyEffects(s: DbState, plan: seq<PlannedMigration>, dir: Direction, oracle: Oracle)
    requires ApplyOf(s, plan, dir, oracle).error.None?
    ensures ApplyOf(s, plan, dir, oracle).state.effects == s.effects + AllStatements(plan)
    decreases |plan|
  {
    if |plan| == 0 {
      assert s.effects + [] == s.effects;
    } else {
      var step := StepOf(s, plan[0], dir, oracle);
      assert step.error.None?;
      var rest := ApplyOf(step.state, plan[1..], dir, oracle);
      assert ApplyOf(s, plan, dir, oracle).state == rest.state;
      StepSuccess(s, plan[0], dir, oracle);
      ApplyEffects(step.state, plan[1..], dir, oracle);
      EffectsAppend(s.effects, Trimmed(plan[0].queries), AllStatements(plan[1..]));
    }
  }

  /**
   * A failed step keeps the effects of a leading part of its statements:
   * none in a transaction, otherwise those that ran before the failure.
   */
  lemma StepFailedEffects(s: DbState, p: PlannedMigration, dir: Direction, oracle: Oracle) returns (n: nat)
    requires StepOf(s, p, dir, oracle).error.Some?
    ensures n <= |p.queries| && StepOf(s, p, dir, oracle).state.effects == s.effects + Trimmed(p.queries)[..n]
    ensures !p.disableTransaction ==> n == 0
  {
    var id := p.migration.id;
    assert s.effects + Trimmed(p.queries)[..0] == s.effects;
    n := 0;
    if p.disableTransaction {
      var run := RunStatements(s, id, p.queries, oracle);
      RunStatementsMeans(s, id, p.queries, oracle);
      if run.error.Some? {
        var k :| FailsAt(s, run, id, p.queries, oracle, k);
        n := k;
      } else {
        assert Trimmed(p.queries)[..|p.queries|] == Trimmed(p.queries);
        n := |p.queries|;
      }
    }
  }

  /**
   * A run that fails keeps the statements of the steps it completed, and of
   * the failing step only a leading part, none when that step ran in a
   * transaction.
   */
  lemma {:induction false} ApplyFailedEffects(s: DbState, plan: seq<PlannedMigration>, dir: Direction, oracle: Oracle)
    returns (n: nat)
    requires ApplyOf(s, plan, dir, oracle).error.Some?
    ensures var o := ApplyOf(s, plan, dir, oracle);
      o.count < |plan| && n <= |plan[o.count].queries| &&
      o.state.effects == s.effects + AllStatements(plan[..o.count]) + Trimmed(plan[o.count].queries)[..n]
    ensures var o := ApplyOf(s, plan, dir, oracle);
      o.count < |plan| && (!plan[o.count].disableTransaction ==> n == 0)
    decreases |plan|
  {
    ApplyCount(s, plan, dir, oracle);
    var step := StepOf(s, plan[0], dir, oracle);
    if step.error.Some? {
      n := StepFailedEffects(s, plan[0], dir, oracle);
      assert AllStatements(plan[..0]) == [];
    } else {
      StepSuccess(s, plan[0], dir, oracle);
      n := ApplyFailedEffects(step.state, plan[1..], dir, oracle);
      var o := ApplyOf(step.state, plan[1..], dir, oracle);
      assert ApplyOf(s, plan, dir, oracle) == Shifted(o, 1);
      FailedEffectsShift(s, step.state, o, plan, n);
    }
  }

  /** The failed-run effects of the tail, behind a completed first step, are those of the whole plan. */
  lemma FailedEffectsShift(s: DbState, t: DbState, o: Outcome, plan: seq<PlannedMigration>, n: nat)
    requires |plan| > 0 && t.effects == s.effects + Trimmed(plan[0].queries)
    requires o.count < |plan| - 1 && n <= |plan[1..][o.count].queries|
    requires o.state.effects == t.effects + AllStatements(plan[1..][..o.count]) + Trimmed(plan[1..][o.count].queries)[..n]
    ensures var o' := Shifted(o, 1);
      o'.count < |plan| && n <= |plan[o'.count].queries| &&
      o'.state.effects == s.effects + AllStatements(plan[..o'.count]) + Trimmed(plan[o'.count].queries)[..n]
  {
    var c := o.count;
    var rest := plan[1..];
    assert plan[c + 1] == rest[c];
    AllStatementsCons(plan, c);
    Regroup(s.effects, Trimmed(plan[0].queries), AllStatements(rest[..c]), Trimmed(rest[c].queries)[..n]);
  }

  lemma AllStatementsCons(plan: seq<PlannedMigration>, c: nat)
    requires c < |plan|
    ensures AllStatements(plan[..c + 1]) == Trimmed(plan[0].queries) + AllStatements(plan[1..][..c])
  {
    assert plan[..c + 1][1..] == plan[1..][..c];
  }

  lemma Regroup(e: seq<string>, t: seq<string>, a: seq<string>, x: seq<string>)
    ensures e + t + a + x == e + (t + a) + x
  {
  }

  lemma EffectsAppend(e: seq<string>, first: seq<string>, rest: seq<string>)
    ensures e + first + rest == e + (first + rest)
  {
  }

  /** When nothing fails, every step completes. */
  lemma {:induction false} ApplyNeverFails(s: DbState, plan: seq<PlannedMigration>, dir: Direction, oracle: Oracle)
    requires NeverFails(oracle)
    ensures ApplyOf(s, plan, dir, oracle).error.None?
    decreases |plan|
  {
    if |plan| > 0 {
      StepCompletes(s, plan[0], dir, oracle);
      ApplyNeverFails(StepOf(s, plan[0], dir, oracle).state, plan[1..], dir, oracle);
    }
  }

  /** An oracle under which only inserting an id the table already holds fails, with `reason`. */
  function KeyedOracle(reason: string): Oracle {
    Oracle(
      id => None,
      (id, stmt) => None,
      (id, rows) => if id in rows then Some(reason) else None,
      id => None,
      id => None)
  }

  /**
   * Nothing stops a plan from holding one id twice. On a table keyed on the
   * id, the first step records it and the second one's insert fails: the
   * run stops after one step, rolled back to the state the first left.
   */
  lemma DuplicateIdStopsRun(p: PlannedMigration, e: seq<string>, reason: string)
    requires !p.disableTransaction
    ensures var id := p.migration.id;
      ApplyOf(DbState([], e), [p, p], Up, KeyedOracle(reason)) ==
        Outcome(DbState([id], e + Trimmed(p.queries)), 1, Some(TxError(id, reason)))
  {
    var oracle := KeyedOracle(reason);
    var id := p.migration.id;
    var s := DbState([], e);
    StepCompletes(s, p, Up, oracle);
    StepSuccess(s, p, Up, oracle);
    var t := StepOf(s, p, Up, oracle).state;
    assert t == DbState([id], e + Trimmed(p.queries));
    RunStatementsMeans(t, id, p.queries, oracle);
    assert [p, p][1..] == [p];
  }

  // ---------------------------------------------------------------------------
  // Skipping
  // ---------------------------------------------------------------------------

  /** Skipping one planned migration: only its record is inserted, in a transaction unless disabled. */
  function SkipStepOf(s: DbState, p: PlannedMigration, oracle: Oracle): Step {
    var id := p.migration.id;
    var tx := !p.disableTransaction;
    if tx && oracle.begin(id).Some? then Step(s, Some(TxError(id, oracle.begin(id).value)))
    else if oracle.insert(id, s.records).Some? then Step(s, Some(TxError(id, oracle.insert(id, s.records).value)))
    else if tx && oracle.commit(id).Some? then Step(s, Some(TxError(id, oracle.commit(id).value)))
    else Step(DbState(s.records + [id], s.effects), None)
  }

  /** The plan's migrations recorded in order, stopping at the first failure. */
  function SkipOf(s: DbState, plan: seq<PlannedMigration>, oracle: Oracle): (o: Outcome)
    ensures o.count <= |plan|
    decreases |plan|
  {
    if |plan| == 0 then Outcome(s, 0, None)
    else
      var step := SkipStepOf(s, plan[0], oracle);
      if step.error.Some? then Outcome(step.state, 0, step.error)
      else Shifted(SkipOf(step.state, plan[1..], oracle), 1)
  }

  /**
   * Skipping never runs a statement; it appends the ids of the migrations
   * it completes, in plan order, and the count is the plan's length exactly
   * when there is no error.
   */
  lemma {:induction false} SkipRecords(s: DbState, plan: seq<PlannedMigration>, oracle: Oracle)
    ensures var o := SkipOf(s, plan, oracle);
      o.state.effects == s.effects && o.state.records == s.records + PlanIds(plan[..o.count]) &&
      o.count <= |plan| && (o.error.None? <==> o.count == |plan|)
    decreases |plan|
  {
    if |plan| == 0 {
      assert PlanIds([]) == [] && s.records + [] == s.records;
    } else {
      var step := SkipStepOf(s, plan[0], oracle);
      if step.error.Some? {
        assert PlanIds(plan[..0]) == [] && s.records + [] == s.records;
      } else {
        SkipRecords(step.state, plan[1..], oracle);
        var o := SkipOf(step.state, plan[1..], oracle);
        PlanIdsCons(plan, o.count);
      }
    }
  }

  // ---------------------------------------------------------------------------
  // Entry points
  // ---------------------------------------------------------------------------

  /** Plan with a limit (0 for none), then run the plan; a planning failure runs nothing. */
  function ExecMaxOf(s: DbState, ms: seq<Migration>, dir: Direction, max: int, ignoreUnknown: bool,
                     loader: Loader, oracle: Oracle): Outcome
  {
    var plan := PlanOf(ms, s.records, dir, max, -1, ignoreUnknown, loader);
    if plan.Err? then Outcome(s, 0, Some(PlanFailed(plan.error))) else ApplyOf(s, plan.value, dir, oracle)
  }

  /** Plan up to a target version, then run the plan; a negative version is refused before anything else. */
  function ExecVersionOf(s: DbState, ms: seq<Migration>, dir: Direction, version: int, ignoreUnknown: bool,
                         loader: Loader, oracle: Oracle): Outcome
  {
    if version < 0 then Outcome(s, 0, Some(NegativeVersion(version)))
    else
      var plan := PlanOf(ms, s.records, dir, 0, version, ignoreUnknown, loader);
      if plan.Err? then Outcome(s, 0, Some(PlanFailed(plan.error))) else ApplyOf(s, plan.value, dir, oracle)
  }

  /** Plan with a limit, then record the plan without running it. */
  function SkipMaxOf(s: DbState, ms: seq<Migration>, dir: Direction, max: int, ignoreUnknown: bool,
                     loader: Loader, oracle: Oracle): Outcome
  {
    var plan := PlanOf(ms, s.records, dir, max, -1, ignoreUnknown, loader);
    if plan.Err? then Outcome(s, 0, Some(PlanFailed(plan.error))) else SkipOf(s, plan.value, oracle)
  }

  /** A recorded id that no candidate has stops every entry point before it touches the database. */
  lemma ExecRejectsUnknown(s: DbState, ms: seq<Migration>, dir: Direction, max: int, version: int,
                           loader: Loader, oracle: Oracle, x: string)
    requires x in s.records && x !in Ids(ms) && version >= 0
    ensures var o := ExecMaxOf(s, ms, dir, max, false, loader, oracle);
      o.state == s && o.count == 0 && o.error.Some? && o.error.value.PlanFailed? &&
      o.error.value.failure.PlanError? && o.error.value.failure.message == UnknownMessage
    ensures var o := ExecVersionOf(s, ms, dir, version, false, loader, oracle);
      o.state == s && o.count == 0 && o.error.Some? && o.error.value.PlanFailed? &&
      o.error.value.failure.PlanError? && o.error.value.failure.message == UnknownMessage
    ensures var o := SkipMaxOf(s, ms, dir, max, false, loader, oracle);
      o.state == s && o.count == 0 && o.error.Some? && o.error.value.PlanFailed?
  {
    UnknownMigrationRejected(ms, s.records, dir, max, -1, loader, x);
    UnknownMigrationRejected(ms, s.records, dir, 0, version, loader, x);
  }

  /** A negative target version is refused with nothing applied, whatever the database holds. */
  lemma ExecVersionNegative(s: DbState, ms: seq<Migration>, dir: Direction, version: int, ignoreUnknown: bool,
                            loader: Loader, oracle: Oracle)
    requires version < 0
    ensures ExecVersionOf(s, ms, dir, version, ignoreUnknown, loader, oracle) ==
      Outcome(s, 0, Some(NegativeVersion(version)))
  {
  }

  /**
   * Migrating an empty database up with loaded candidates and nothing
   * failing applies the first `max` candidates (all with 0) and records
   * them in order.
   */
  lemma ExecMaxFromScratch(ms: seq<Migration>, effects: seq<string>, max: int, ignoreUnknown: bool,
                           loader: Loader, oracle: Oracle)
    requires forall k :: 0 <= k < |ms| ==> IsLoaded(ms[k])
    requires NeverFails(oracle)
    ensures var o := ExecMaxOf(DbState([], effects), ms, Up, max, ignoreUnknown, loader, oracle);
      o.error.None? && o.count == MaxCount(max, |ms|) && o.state.records == Ids(ms[..o.count])
  {
    var s := DbState([], effects);
    PlanFromScratch(ms, max, ignoreUnknown, loader);
    var n := MaxCount(max, |ms|);
    var plan := PlannedAll(ms[..n], Up);
    ApplyNeverFails(s, plan, Up, oracle);
    ApplyCount(s, plan, Up, oracle);
    ApplyUpRecords(s, plan, oracle);
    assert plan[..n] == plan;
    assert PlanIds(plan) == Ids(ms[..n]) by {
      forall k | 0 <= k < n ensures PlanIds(plan)[k] == Ids(ms[..n])[k] {
      }
    }
    assert [] + Ids(ms[..n]) == Ids(ms[..n]);
  }

  // ---------------------------------------------------------------------------
  // Repeated runs
  // ---------------------------------------------------------------------------

  lemma PlanIdsAppend(a: seq<PlannedMigration>, b: seq<PlannedMigration>)
    ensures PlanIds(a + b) == PlanIds(a) + PlanIds(b)
  {
    forall k | 0 <= k < |a + b| ensures PlanIds(a + b)[k] == (PlanIds(a) + PlanIds(b))[k] {
      if k < |a| {
        assert (a + b)[k] == a[k];
      } else {
        assert (a + b)[k] == b[k - |a|];
      }
    }
  }

  /** Loading and planning keeps the ids, in order. */
  lemma LoadAllIds(s: seq<Migration>, dir: Direction, loader: Loader)
    requires LoadAll(s, dir, loader).Ok?
    ensures PlanIds(LoadAll(s, dir, loader).value) == Ids(s)
  {
    var p := LoadAll(s, dir, loader).value;
    forall k | 0 <= k < |s| ensures PlanIds(p)[k] == Ids(s)[k] {
      assert p[k] == Planned(Load(s[k], loader).value, dir);
    }
  }

  /**
   * The ids an unlimited plan runs: the ids owed by catch-up (when something
   * is applied), then the selected ids.
   */
  lemma FullPlanIds(ms: seq<Migration>, records: seq<string>, dir: Direction, ignoreUnknown: bool, loader: Loader)
    requires forall x :: x in records ==> x in Ids(ms)
    requires PlanOf(ms, records, dir, 0, -1, ignoreUnknown, loader).Ok?
    ensures var existing := SortById(BareMigrations(records));
      var lastRun := LastRun(existing);
      PlanIds(PlanOf(ms, records, dir, 0, -1, ignoreUnknown, loader).value) ==
        (if |existing| > 0 then Ids(Missing(ms, existing, lastRun)) else []) + Ids(Applicable(ms, lastRun, dir))
  {
    KnownMigrationsPass(ms, records, dir, 0, -1, ignoreUnknown, loader);
    var existing := SortById(BareMigrations(records));
    var lastRun := LastRun(existing);
    var toApply := Applicable(ms, lastRun, dir);
    var c := if |existing| > 0 then LoadAll(Missing(ms, existing, lastRun), Up, loader) else Ok([]);
    assert c.Ok?;
    assert PlanFrom(ms, existing, dir, 0, -1, loader) == PlanSelected(c.value, toApply, dir, 0, -1, loader);
    assert toApply[..MaxCount(0, |toApply|)] == toApply;
    var planned := LoadAll(toApply, dir, loader);
    assert planned.Ok?;
    LoadAllIds(toApply, dir, loader);
    if |existing| > 0 {
      LoadAllIds(Missing(ms, existing, lastRun), Up, loader);
    } else {
      assert PlanIds(c.value) == [];
    }
    PlanIdsAppend(c.value, planned.value);
  }

  /** An unlimited plan only runs candidates. */
  lemma FullPlanKnown(ms: seq<Migration>, records: seq<string>, dir: Direction, ignoreUnknown: bool, loader: Loader,
                      x: string)
    requires forall y :: y in records ==> y in Ids(ms)
    requires PlanOf(ms, records, dir, 0, -1, ignoreUnknown, loader).Ok?
    requires x in PlanIds(PlanOf(ms, records, dir, 0, -1, ignoreUnknown, loader).value)
    ensures x in Ids(ms)
  {
    FullPlanIds(ms, records, dir, ignoreUnknown, loader);
    var existing := SortById(BareMigrations(records));
    var lastRun := LastRun(existing);
    var missing := if |existing| > 0 then Missing(ms, existing, lastRun) else [];
    var toApply := Applicable(ms, lastRun, dir);
    if x in Ids(missing) {
      if |existing| > 0 {
        MissingKnown(ms, existing, lastRun, x);
      }
    } else {
      ApplicableKnown(ms, lastRun, dir, x);
    }
  }

  lemma MissingKnown(ms: seq<Migration>, existing: seq<Migration>, lastRun: string, x: string)
    requires x in Ids(Missing(ms, existing, lastRun))
    ensures x in Ids(ms)
  {
    var missing := Missing(ms, existing, lastRun);
    var k :| 0 <= k < |missing| && Ids(missing)[k] == x;
    MissingMeans(ms, existing, lastRun, missing[k]);
    var j :| 0 <= j < |ms| && ms[j] == missing[k];
    assert Ids(ms)[j] == x;
  }

  lemma ApplicableKnown(ms: seq<Migration>, current: string, dir: Direction, x: string)
    requires x in Ids(Applicable(ms, current, dir))
    ensures x in Ids(ms)
  {
    var toApply := Applicable(ms, current, dir);
    var k :| 0 <= k < |toApply| && Ids(toApply)[k] == x;
    ApplicableWithin(ms, current, dir, k);
    var j :| 0 <= j < |ms| && ms[j] == toApply[k];
    assert Ids(ms)[j] == x;
  }

  /** The ids owed by catch-up or following the last applied one, with the recorded ones, take in every candidate. */
  lemma UpCandidatesCovered(ms: seq<Migration>, records: seq<string>, x: string)
    requires SortedById(ms) && DistinctIds(ms) && "" !in Ids(ms)
    requires forall y :: y in records ==> y in Ids(ms)
    requires x in Ids(ms)
    ensures var existing := SortById(BareMigrations(records));
      var lastRun := LastRun(existing);
      x in records + (if |existing| > 0 then Ids(Missing(ms, existing, lastRun)) else []) + Ids(Applicable(ms, lastRun, Up))
  {
    SortedRecordsLength(records);
    if |records| == 0 {
      UpCoversFromScratch(ms, records, x);
    } else {
      UpCoversAfterLast(ms, records, x);
    }
  }

  lemma UpCoversFromScratch(ms: seq<Migration>, records: seq<string>, x: string)
    requires |records| == 0 && x in Ids(ms)
    ensures x in Ids(Applicable(ms, LastRun(SortById(BareMigrations(records))), Up))
  {
    SortedRecordsLength(records);
    ApplicableFromScratch(ms);
  }

  lemma UpCoversAfterLast(ms: seq<Migration>, records: seq<string>, x: string)
    requires SortedById(ms) && DistinctIds(ms) && "" !in Ids(ms)
    requires forall y :: y in records ==> y in Ids(ms)
    requires |records| > 0 && x in Ids(ms)
    ensures var existing := SortById(BareMigrations(records));
      var lastRun := LastRun(existing);
      x in records || x in Ids(Missing(ms, existing, lastRun)) || x in Ids(Applicable(ms, lastRun, Up))
  {
    var i := LastRunAt(ms, records);
    var j :| 0 <= j < |ms| && Ids(ms)[j] == x;
    if j > i {
      UpCoversLater(ms, ms[i].id, i, j);
    } else if j < i && x !in records {
      UpCoversEarlier(ms, records, ms[i].id, j);
    }
  }

  /** A candidate after the last applied one goes up. */
  lemma UpCoversLater(ms: seq<Migration>, lastRun: string, i: nat, j: nat)
    requires i < j < |ms| && ms[i].id == lastRun && lastRun != ""
    requires forall k :: 0 <= k < i ==> ms[k].id != lastRun
    ensures ms[j].id in Ids(Applicable(ms, lastRun, Up))
  {
    ApplicableAt(ms, lastRun, i);
    assert Ids(Applicable(ms, lastRun, Up))[j - i - 1] == ms[j].id;
  }

  /** An unrecorded candidate before the last applied one is owed by catch-up. */
  lemma UpCoversEarlier(ms: seq<Migration>, records: seq<string>, lastRun: string, j: nat)
    requires j < |ms| && ms[j].id !in records && Less(ms[j].id, lastRun)
    ensures ms[j].id in Ids(Missing(ms, SortById(BareMigrations(records)), lastRun))
  {
    var existing := SortById(BareMigrations(records));
    SortedRecordIds(records, ms[j].id);
    MissingMeans(ms, existing, lastRun, ms[j]);
    var missing := Missing(ms, existing, lastRun);
    var k :| 0 <= k < |missing| && missing[k] == ms[j];
    assert Ids(missing)[k] == ms[j].id;
  }

  /**
   * An unlimited up plan covers every candidate that is not recorded: it is
   * owed by catch-up, or it follows the last applied one.
   */
  lemma FullUpPlanCovers(ms: seq<Migration>, records: seq<string>, ignoreUnknown: bool, loader: Loader, x: string)
    requires SortedById(ms) && DistinctIds(ms) && "" !in Ids(ms)
    requires forall y :: y in records ==> y in Ids(ms)
    requires PlanOf(ms, records, Up, 0, -1, ignoreUnknown, loader).Ok?
    requires x in Ids(ms)
    ensures x in records + PlanIds(PlanOf(ms, records, Up, 0, -1, ignoreUnknown, loader).value)
  {
    FullPlanIds(ms, records, Up, ignoreUnknown, loader);
    UpCandidatesCovered(ms, records, x);
  }

  /** An unlimited down plan covers every recorded id: all of them sit at or before the last applied one. */
  lemma FullDownPlanCovers(ms: seq<Migration>, records: seq<string>, ignoreUnknown: bool, loader: Loader, x: string)
    requires SortedById(ms) && DistinctIds(ms) && "" !in Ids(ms)
    requires forall y :: y in records ==> y in Ids(ms)
    requires PlanOf(ms, records, Down, 0, -1, ignoreUnknown, loader).Ok?
    requires x in records
    ensures x in PlanIds(PlanOf(ms, records, Down, 0, -1, ignoreUnknown, loader).value)
  {
    FullPlanIds(ms, records, Down, ignoreUnknown, loader);
    var existing := SortById(BareMigrations(records));
    var lastRun := LastRun(existing);
    SortedRecordsLength(records);
    var i := LastRunAt(ms, records);
    assert Ids(ms)[i] == lastRun;
    ApplicableAt(ms, lastRun, i);
    var j :| 0 <= j < |ms| && Ids(ms)[j] == x;
    assert j <= i;
    assert Ids(Applicable(ms, lastRun, Down))[i - j] == x;
  }

  /** After an unlimited up run that completes, the table records exactly the candidate ids. */
  lemma ExecMaxUpRecordsAll(s: DbState, ms: seq<Migration>, ignoreUnknown: bool, loader: Loader, oracle: Oracle,
                            x: string)
    requires SortedById(ms) && DistinctIds(ms) && "" !in Ids(ms)
    requires forall y :: y in s.records ==> y in Ids(ms)
    requires ExecMaxOf(s, ms, Up, 0, ignoreUnknown, loader, oracle).error.None?
    ensures x in ExecMaxOf(s, ms, Up, 0, ignoreUnknown, loader, oracle).state.records <==> x in Ids(ms)
  {
    var plan := PlanOf(ms, s.records, Up, 0, -1, ignoreUnknown, loader);
    assert plan.Ok?;
    var o := ApplyOf(s, plan.value, Up, oracle);
    ApplyCount(s, plan.value, Up, oracle);
    ApplyUpRecords(s, plan.value, oracle);
    assert plan.value[..o.count] == plan.value;
    if x in Ids(ms) {
      FullUpPlanCovers(ms, s.records, ignoreUnknown, loader, x);
    }
    if x in PlanIds(plan.value) {
      FullPlanKnown(ms, s.records, Up, ignoreUnknown, loader, x);
    }
  }

  /** After an unlimited skip that completes, the table records exactly the candidate ids, and no statement has run. */
  lemma SkipMaxRecordsAll(s: DbState, ms: seq<Migration>, ignoreUnknown: bool, loader: Loader, oracle: Oracle,
                          x: string)
    requires SortedById(ms) && DistinctIds(ms) && "" !in Ids(ms)
    requires forall y :: y in s.records ==> y in Ids(ms)
    requires SkipMaxOf(s, ms, Up, 0, ignoreUnknown, loader, oracle).error.None?
    ensures x in SkipMaxOf(s, ms, Up, 0, ignoreUnknown, loader, oracle).state.records <==> x in Ids(ms)
    ensures SkipMaxOf(s, ms, Up, 0, ignoreUnknown, loader, oracle).state.effects == s.effects
  {
    var plan := PlanOf(ms, s.records, Up, 0, -1, ignoreUnknown, loader);
    assert plan.Ok?;
    var o := SkipOf(s, plan.value, oracle);
    SkipRecords(s, plan.value, oracle);
    assert plan.value[..o.count] == plan.value;
    if x in Ids(ms) {
      FullUpPlanCovers(ms, s.records, ignoreUnknown, loader, x);
    }
    if x in PlanIds(plan.value) {
      FullPlanKnown(ms, s.records, Up, ignoreUnknown, loader, x);
    }
  }

  /**
   * Migrating up is idempotent: once an unlimited up run completes, planning
   * up again finds nothing, and a second run applies nothing and leaves the
   * database as it is.
   */
  lemma ExecMaxIdempotent(s: DbState, ms: seq<Migration>, ignoreUnknown: bool, loader: Loader, oracle: Oracle)
    requires SortedById(ms) && DistinctIds(ms) && "" !in Ids(ms)
    requires forall y :: y in s.records ==> y in Ids(ms)
    requires ExecMaxOf(s, ms, Up, 0, ignoreUnknown, loader, oracle).error.None?
    ensures var o := ExecMaxOf(s, ms, Up, 0, ignoreUnknown, loader, oracle);
      PlanOf(ms, o.state.records, Up, 0, -1, ignoreUnknown, loader) == Ok([]) &&
      ExecMaxOf(o.state, ms, Up, 0, ignoreUnknown, loader, oracle) == Outcome(o.state, 0, None)
  {
    var o := ExecMaxOf(s, ms, Up, 0, ignoreUnknown, loader, oracle);
    forall x ensures x in o.state.records <==> x in Ids(ms) {
      ExecMaxUpRecordsAll(s, ms, ignoreUnknown, loader, oracle, x);
    }
    NothingLeftToApply(ms, o.state.records, 0, ignoreUnknown, loader);
  }

  /**
   * Skipping pegs the database: once an unlimited skip completes, migrating
   * up applies nothing, so no statement of any candidate ever runs.
   */
  lemma SkipMaxThenExec(s: DbState, ms: seq<Migration>, ignoreUnknown: bool, loader: Loader, oracle: Oracle)
    requires SortedById(ms) && DistinctIds(ms) && "" !in Ids(ms)
    requires forall y :: y in s.records ==> y in Ids(ms)
    requires SkipMaxOf(s, ms, Up, 0, ignoreUnknown, loader, oracle).error.None?
    ensures var o := SkipMaxOf(s, ms, Up, 0, ignoreUnknown, loader, oracle);
      o.state.effects == s.effects &&
      ExecMaxOf(o.state, ms, Up, 0, ignoreUnknown, loader, oracle) == Outcome(o.state, 0, None)
  {
    var o := SkipMaxOf(s, ms, Up, 0, ignoreUnknown, loader, oracle);
    forall x ensures x in o.state.records <==> x in Ids(ms) {
      SkipMaxRecordsAll(s, ms, ignoreUnknown, loader, oracle, x);
    }
    SkipMaxRecordsAll(s, ms, ignoreUnknown, loader, oracle, "");
    NothingLeftToApply(ms, o.state.records, 0, ignoreUnknown, loader);
  }

  /**
   * An unlimited down run that completes empties the migration table, and a
   * second one has nothing left to do.
   */
  lemma ExecMaxDownAll(s: DbState, ms: seq<Migration>, ignoreUnknown: bool, loader: Loader, oracle: Oracle)
    requires SortedById(ms) && DistinctIds(ms) && "" !in Ids(ms)
    requires forall y :: y in s.records ==> y in Ids(ms)
    requires ExecMaxOf(s, ms, Down, 0, ignoreUnknown, loader, oracle).error.None?
    ensures var o := ExecMaxOf(s, ms, Down, 0, ignoreUnknown, loader, oracle);
      o.state.records == [] &&
      ExecMaxOf(o.state, ms, Down, 0, ignoreUnknown, loader, oracle) == Outcome(o.state, 0, None)
  {
    var plan := PlanOf(ms, s.records, Down, 0, -1, ignoreUnknown, loader);
    assert plan.Ok?;
    var o := ApplyOf(s, plan.value, Down, oracle);
    ApplyCount(s, plan.value, Down, oracle);
    assert plan.value[..o.count] == plan.value;
    if |o.state.records| > 0 {
      var x := o.state.records[0];
      ApplyDownRecords(s, plan.value, oracle, x);
      FullDownPlanCovers(ms, s.records, ignoreUnknown, loader, x);
    }
    NothingToUndo(ms, 0, ignoreUnknown, loader);
  }

  /** Migrating all the way up and then all the way down, when both runs complete, leaves the table empty. */
  lemma UpThenDownEmpties(s: DbState, ms: seq<Migration>, ignoreUnknown: bool, loader: Loader, oracle: Oracle)
    requires SortedById(ms) && DistinctIds(ms) && "" !in Ids(ms)
    requires forall y :: y in s.records ==> y in Ids(ms)
    requires ExecMaxOf(s, ms, Up, 0, ignoreUnknown, loader, oracle).error.None?
    requires ExecMaxOf(ExecMaxOf(s, ms, Up, 0, ignoreUnknown, loader, oracle).state, ms, Down, 0, ignoreUnknown, loader,
                       oracle).error.None?
    ensures ExecMaxOf(ExecMaxOf(s, ms, Up, 0, ignoreUnknown, loader, oracle).state, ms, Down, 0, ignoreUnknown, loader,
                      oracle).state.records == []
  {
    var o := ExecMaxOf(s, ms, Up, 0, ignoreUnknown, loader, oracle);
    forall x | x in o.state.records ensures x in Ids(ms) {
      ExecMaxUpRecordsAll(s, ms, ignoreUnknown, loader, oracle, x);
    }
    ExecMaxDownAll(o.state, ms, ignoreUnknown, loader, oracle);
  }

  // ---------------------------------------------------------------------------
  // The database and the methods that change it
  // ---------------------------------------------------------------------------

  class Database {
    var records: seq<string>
    var effects: seq<string>

    function State(): DbState
      reads this
    {
      DbState(records, effects)
    }

    constructor(records: seq<string>)
      ensures State() == DbState(records, [])
    {
      this.records := records;
      this.effects := [];
    }

    /** Runs the statements of migration `id` in order, stopping at the first failure. */
    method ExecStatements(id: string, queries: seq<string>, oracle: Oracle) returns (err: Option<string>)
      modifies this
      ensures Progress(State(), err) == RunStatements(old(State()), id, queries, oracle)
    {
      for i := 0 to |queries|
        invariant RunStatements(old(State()), id, queries, oracle) == RunStatements(State(), id, queries[i..], oracle)
      {
        var stmt := TrimStatement(queries[i]);
        var e := oracle.exec(id, stmt);
        if e.Some? {
          return e;
        }
        effects := effects + [stmt];
        assert queries[i..][1..] == queries[i + 1..];
      }
      return None;
    }

    /** Inserts (up) or deletes (down) the record of migration `id`. */
    method RecordMigration(id: string, dir: Direction, oracle: Oracle) returns (err: Option<string>)
      modifies this
      ensures Progress(State(), err) == RecordStep(old(State()), id, dir, oracle)
    {
      match dir {
        case Up =>
          err := oracle.insert(id, records);
          if err.None? {
            records := records + [id];
          }
        case Down =>
          err := oracle.delete(id);
          if err.None? {
            records := Without(records, id);
          }
      }
    }

    /** One planned migration: begin, statements, record, commit; a failure in a transaction rolls it back. */
    method ApplyStep(migration: PlannedMigration, dir: Direction, oracle: Oracle) returns (err: Option<ExecError>)
      modifies this
      ensures Step(State(), err) == StepOf(old(State()), migration, dir, oracle)
    {
      var id := migration.migration.id;
      var tx := !migration.disableTransaction;
      // what a rollback returns to
      var savedRecords, savedEffects := records, effects;
      if tx {
        var beginErr := oracle.begin(id);
        if beginErr.Some? {
          return Some(TxError(id, beginErr.value));
        }
      }
      var execErr := ExecStatements(id, migration.queries, oracle);
      if execErr.Some? {
        if tx {
          records, effects := savedRecords, savedEffects;
        }
        return Some(TxError(id, execErr.value));
      }
      var recordErr := RecordMigration(id, dir, oracle);
      if recordErr.Some? {
        if tx {
          records, effects := savedRecords, savedEffects;
        }
        return Some(TxError(id, recordErr.value));
      }
      if tx {
        var commitErr := oracle.commit(id);
        if commitErr.Some? {
          // an uncommitted transaction leaves nothing behind
          records, effects := savedRecords, savedEffects;
          return Some(TxError(id, commitErr.value));
        }
      }
      return None;
    }

    /** Runs the plan step by step and returns how many steps completed. */
    method ApplyMigrations(dir: Direction, migrations: seq<PlannedMigration>, oracle: Oracle)
      returns (applied: nat, err: Option<ExecError>)
      modifies this
      ensures Outcome(State(), applied, err) == ApplyOf(old(State()), migrations, dir, oracle)
    {
      applied := 0;
      while applied < |migrations|
        invariant applied <= |migrations|
        invariant ApplyOf(old(State()), migrations, dir, oracle) ==
          Shifted(ApplyOf(State(), migrations[applied..], dir, oracle), applied)
      {
        ApplyOfAt(State(), migrations, applied, dir, oracle);
        var e := ApplyStep(migrations[applied], dir, oracle);
        if e.Some? {
          return applied, e;
        }
        applied := applied + 1;
      }
      return applied, None;
    }

    /** Records the plan step by step without running its statements. */
    method SkipMigrations(migrations: seq<PlannedMigration>, oracle: Oracle)
      returns (applied: nat, err: Option<ExecError>)
      modifies this
      ensures Outcome(State(), applied, err) == SkipOf(old(State()), migrations, oracle)
    {
      applied := 0;
      while applied < |migrations|
        invariant applied <= |migrations|
        invariant SkipOf(old(State()), migrations, oracle) ==
          Shifted(SkipOf(State(), migrations[applied..], oracle), applied)
      {
        assert migrations[applied..][0] == migrations[applied];
        assert migrations[applied..][1..] == migrations[applied + 1..];
        var migration := migrations[applied];
        var id := migration.migration.id;
        var tx := !migration.disableTransaction;
        if tx {
          var beginErr := oracle.begin(id);
          if beginErr.Some? {
            return applied, Some(TxError(id, beginErr.value));
          }
        }
        var insertErr := oracle.insert(id, records);
        if insertErr.Some? {
          return applied, Some(TxError(id, insertErr.value));
        }
        if tx {
          var commitErr := oracle.commit(id);
          if commitErr.Some? {
            return applied, Some(TxError(id, commitErr.value));
          }
        }
        records := records + [id];
        applied := applied + 1;
      }
      return applied, None;
    }

    /** Plans with a limit (0 for none) and runs the plan. */
    method ExecMax(ms: seq<Migration>, dir: Direction, max: int, ignoreUnknown: bool, loader: Loader, oracle: Oracle)
      returns (applied: nat, err: Option<ExecError>)
      modifies this
      ensures Outcome(State(), applied, err) == ExecMaxOf(old(State()), ms, dir, max, ignoreUnknown, loader, oracle)
    {
      var plan := PlanMigrationCommon(ms, records, dir, max, -1, ignoreUnknown, loader);
      if plan.Err? {
        return 0, Some(PlanFailed(plan.error));
      }
      applied, err := ApplyMigrations(dir, plan.value, oracle);
    }

    /** Plans up to a target version and runs the plan; a negative version is refused first. */
    method ExecVersion(ms: seq<Migration>, dir: Direction, version: int, ignoreUnknown: bool, loader: Loader,
                       oracle: Oracle)
      returns (applied: nat, err: Option<ExecError>)
      modifies this
      ensures Outcome(State(), applied, err) ==
        ExecVersionOf(old(State()), ms, dir, version, ignoreUnknown, loader, oracle)
    {
      if version < 0 {
        return 0, Some(NegativeVersion(version));
      }
      var plan := PlanMigrationCommon(ms, records, dir, 0, version, ignoreUnknown, loader);
      if plan.Err? {
        return 0, Some(PlanFailed(plan.error));
      }
      applied, err := ApplyMigrations(dir, plan.value, oracle);
    }

    /** Plans with a limit and records the plan without running it. */
    method SkipMax(ms: seq<Migration>, dir: Direction, max: int, ignoreUnknown: bool, loader: Loader, oracle: Oracle)
      returns (applied: nat, err: Option<ExecError>)
      modifies this
      ensures Outcome(State(), applied, err) == SkipMaxOf(old(State()), ms, dir, max, ignoreUnknown, loader, oracle)
    {
      var plan := PlanMigrationCommon(ms, records, dir, max, -1, ignoreUnknown, loader);
      if plan.Err? {
        return 0, Some(PlanFailed(plan.error));
      }
      applied, err := SkipMigrations(plan.value, oracle);
    }
  }
}
