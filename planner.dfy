/**
 * Planning: which migrations a run applies, in which order and direction.
 * Each planning step of the source is a method with its loops, proved equal
 * to a specification function; the properties the planner promises are
 * lemmas about those functions.
 */
module Planner {
  import opened Wrappers
  import opened Ordering
  import opened Migrations

  /** Why no plan could be made. */
  datatype PlanFailure =
    | PlanError(migrationId: string, message: string)
    | LoadFailed(message: string)
    | Panic(id: string)

  /** The text of a plan error, naming the migration it is about. */
  function PlanErrorText(f: PlanFailure): string
    requires f.PlanError?
  {
    "Unable to create migration plan because of " + f.migrationId + ": " + f.message
  }

  const UnknownMessage := "unknown migration in database"

  /** A signed integer in decimal, as `%d` prints it. */
  function IntText(n: int): (s: string)
    ensures n >= 0 ==> s == Decimal(n)
  {
    if n < 0 then "-" + Decimal(-n) else Decimal(n)
  }

  /** The plan error for a target version that the walk does not reach. */
  function VersionError(version: int): PlanFailure {
    PlanError("", "unknown migration with version id " + IntText(version) + " in database")
  }

  function Reversed<T>(s: seq<T>): (r: seq<T>)
    ensures |r| == |s| && forall i :: 0 <= i < |s| ==> r[i] == s[|s| - 1 - i]
  {
    if |s| == 0 then [] else Reversed(s[1..]) + [s[0]]
  }

  lemma ReversedByIndex<T>(r: seq<T>, s: seq<T>)
    requires |r| == |s| && forall k :: 0 <= k < |s| ==> r[k] == s[|s| - 1 - k]
    ensures r == Reversed(s)
  {
  }

  // ---------------------------------------------------------------------
  // Selection (`ToApply`)
  // ---------------------------------------------------------------------

  /**
   * The index the selection walk stops at: the first migration with the
   * given id, or the last migration when none has it (-1 when there is none).
   */
  function FirstMatch(ms: seq<Migration>, current: string): (idx: int)
    ensures -1 <= idx < |ms| && (idx == -1 <==> |ms| == 0)
    ensures forall j :: 0 <= j < idx ==> ms[j].id != current
    ensures 0 <= idx < |ms| - 1 ==> ms[idx].id == current
  {
    if |ms| == 0 then -1
    else if ms[0].id == current then 0
    else 1 + FirstMatch(ms[1..], current)
  }

  /** The walk's stopping rule determines the index. */
  lemma FirstMatchUnique(ms: seq<Migration>, current: string, idx: int)
    requires -1 <= idx < |ms| && (idx == -1 <==> |ms| == 0)
    requires forall j :: 0 <= j < idx ==> ms[j].id != current
    requires idx == |ms| - 1 || ms[idx].id == current
    ensures idx == FirstMatch(ms, current)
  {
  }

  /**
   * The migrations to run given the last applied id `current` (empty when
   * nothing is applied): those after it going up, or it and those before it,
   * latest first, going down.
   */
  function Applicable(ms: seq<Migration>, current: string, dir: Direction): seq<Migration> {
    var idx := if current == "" then -1 else FirstMatch(ms, current);
    match dir
    case Up => ms[idx + 1..]
    case Down => Reversed(ms[..idx + 1])
  }

  /** Nothing applied: everything goes up and nothing comes down. */
  lemma ApplicableFromScratch(ms: seq<Migration>)
    ensures Applicable(ms, "", Up) == ms
    ensures Applicable(ms, "", Down) == []
  {
  }

  /** The last applied migration is at `i`: up runs what follows, down runs it and its predecessors, latest first. */
  lemma ApplicableAt(ms: seq<Migration>, current: string, i: int)
    requires current != "" && 0 <= i < |ms| && ms[i].id == current
    requires forall j :: 0 <= j < i ==> ms[j].id != current
    ensures Applicable(ms, current, Up) == ms[i + 1..]
    ensures |Applicable(ms, current, Down)| == i + 1
    ensures forall k :: 0 <= k <= i ==> Applicable(ms, current, Down)[k] == ms[i - k]
  {
    FirstMatchUnique(ms, current, i);
  }

  /** A last applied id that is not among the migrations: the walk ends on the last one. */
  lemma ApplicableUnknownCurrent(ms: seq<Migration>, current: string)
    requires current != ""
    requires forall j :: 0 <= j < |ms| ==> ms[j].id != current
    ensures Applicable(ms, current, Up) == []
    ensures Applicable(ms, current, Down) == Reversed(ms)
  {
    FirstMatchUnique(ms, current, |ms| - 1);
    assert ms[..|ms|] == ms;
  }

  /** Going up and coming down split the migrations at the last applied one. */
  lemma ApplicableSplit(ms: seq<Migration>, current: string)
    ensures Reversed(Applicable(ms, current, Down)) + Applicable(ms, current, Up) == ms
  {
    var idx := if current == "" then -1 else FirstMatch(ms, current);
    assert Applicable(ms, current, Down) == Reversed(ms[..idx + 1]);
    assert Applicable(ms, current, Up) == ms[idx + 1..];
    SplitAt(ms, idx);
  }

  lemma SplitAt(ms: seq<Migration>, idx: int)
    requires -1 <= idx < |ms|
    ensures Reversed(Reversed(ms[..idx + 1])) + ms[idx + 1..] == ms
  {
    ReversedTwice(ms[..idx + 1]);
    assert ms[..idx + 1] + ms[idx + 1..] == ms;
  }

  lemma ReversedTwice<T>(s: seq<T>)
    ensures Reversed(Reversed(s)) == s
  {
    ReversedByIndex(s, Reversed(s));
  }

  /** The selection walk, then the reversed copy for the down direction. */
  method ToApply(migrations: seq<Migration>, current: string, direction: Direction) returns (r: seq<Migration>)
    ensures r == Applicable(migrations, current, direction)
  {
    var index := -1;
    if current != "" {
      while index < |migrations| - 1
        invariant -1 <= index < |migrations| || (index == -1 && |migrations| == 0)
        invariant forall j :: 0 <= j <= index ==> migrations[j].id != current
      {
        index := index + 1;
        if migrations[index].id == current {
          break;
        }
      }
      FirstMatchUnique(migrations, current, index);
    }

    if direction == Up {
      return migrations[index + 1..];
    }
    if index == -1 {
      return [];
    }
    var toApply := new Migration[index + 1];
    for i := 0 to index + 1
      invariant forall k :: index - i < k <= index ==> toApply[k] == migrations[index - k]
    {
      toApply[index - i] := migrations[i];
    }
    r := toApply[..];
    ReversedByIndex(r, migrations[..index + 1]);
  }

  // ---------------------------------------------------------------------
  // Loading and planning a list of migrations in one direction
  // ---------------------------------------------------------------------

  /**
   * Loads each migration in order and plans it in `dir`; the first load
   * that fails ends the list with its error.
   */
  function LoadAll(s: seq<Migration>, dir: Direction, loader: Loader): (r: Result<seq<PlannedMigration>, string>)
    ensures r.Ok? <==> forall k :: 0 <= k < |s| ==> Load(s[k], loader).Ok?
    ensures r.Ok? ==> |r.value| == |s|
    ensures r.Ok? ==> forall k :: 0 <= k < |s| ==>
      Load(s[k], loader).Ok? && r.value[k] == Planned(Load(s[k], loader).value, dir)
    ensures r.Err? ==> exists k :: 0 <= k < |s| && Load(s[k], loader) == Err(r.error) &&
                                  forall j :: 0 <= j < k ==> Load(s[j], loader).Ok?
  {
    if |s| == 0 then Ok([])
    else
      match Load(s[0], loader)
      case Err(e) => Err(e)
      case Ok(m) =>
        var rest := LoadAll(s[1..], dir, loader);
        assert forall k :: 1 <= k < |s| ==> s[k] == s[1..][k - 1];
        match rest
        case Err(e) => Err(e)
        case Ok(tail) => Ok([Planned(m, dir)] + tail)
  }

  /** Migrations already loaded are planned as they are, with the direction's statements. */
  lemma LoadAllLoaded(s: seq<Migration>, dir: Direction, loader: Loader)
    requires forall k :: 0 <= k < |s| ==> IsLoaded(s[k])
    ensures LoadAll(s, dir, loader).Ok?
    ensures forall k :: 0 <= k < |s| ==> LoadAll(s, dir, loader).value[k] == Planned(s[k], dir)
    ensures LoadAll(s, dir, loader) == Ok(PlannedAll(s, dir))
  {
    var r := LoadAll(s, dir, loader);
    assert r.value == PlannedAll(s, dir) by {
      forall k | 0 <= k < |s| ensures r.value[k] == PlannedAll(s, dir)[k] {
      }
    }
  }

  /** Every migration of `s`, planned in direction `dir`. */
  function PlannedAll(s: seq<Migration>, dir: Direction): (p: seq<PlannedMigration>)
    ensures |p| == |s|
  {
    seq(|s|, k requires 0 <= k < |s| => Planned(s[k], dir))
  }

  /** A planned list put behind planned entries already collected. */
  function Prepend(p: seq<PlannedMigration>, r: Result<seq<PlannedMigration>, string>): Result<seq<PlannedMigration>, string> {
    match r
    case Ok(x) => Ok(p + x)
    case Err(e) => Err(e)
  }

  lemma PrependNothing(r: Result<seq<PlannedMigration>, string>)
    ensures Prepend([], r) == r
  {
    if r.Ok? {
      assert [] + r.value == r.value;
    }
  }

  lemma PrependTwice(p: seq<PlannedMigration>, q: seq<PlannedMigration>, r: Result<seq<PlannedMigration>, string>)
    ensures Prepend(p, Prepend(q, r)) == Prepend(p + q, r)
  {
    if r.Ok? {
      assert p + (q + r.value) == (p + q) + r.value;
    }
  }

  lemma LoadAllCons(m: Migration, rest: seq<Migration>, dir: Direction, loader: Loader)
    ensures Load(m, loader).Err? ==> LoadAll([m] + rest, dir, loader) == Err(Load(m, loader).error)
    ensures Load(m, loader).Ok? ==>
      LoadAll([m] + rest, dir, loader) == Prepend([Planned(Load(m, loader).value, dir)], LoadAll(rest, dir, loader))
  {
    assert ([m] + rest)[0] == m && ([m] + rest)[1..] == rest;
  }

  // ---------------------------------------------------------------------
  // Gap repair (`ToCatchup`)
  // ---------------------------------------------------------------------

  /** The migrations that are not applied yet but sort before the last applied one, in their order. */
  function Missing(ms: seq<Migration>, existing: seq<Migration>, lastRun: string): seq<Migration> {
    if |ms| == 0 then []
    else
      (if ms[0].id !in Ids(existing) && Less(ms[0].id, lastRun) then [ms[0]] else []) +
      Missing(ms[1..], existing, lastRun)
  }

  /** Exactly the unapplied migrations below the last applied one are missing. */
  lemma {:induction false} MissingMeans(ms: seq<Migration>, existing: seq<Migration>, lastRun: string, m: Migration)
    ensures m in Missing(ms, existing, lastRun) <==>
      m in ms && m.id !in Ids(existing) && Less(m.id, lastRun)
  {
    if |ms| > 0 {
      MissingMeans(ms[1..], existing, lastRun, m);
      assert ms == [ms[0]] + ms[1..];
    }
  }

  /** Missing migrations keep the order of the list they come from. */
  lemma {:induction false} MissingSorted(ms: seq<Migration>, existing: seq<Migration>, lastRun: string)
    requires SortedById(ms)
    ensures SortedById(Missing(ms, existing, lastRun))
  {
    if |ms| > 0 {
      var rest := Missing(ms[1..], existing, lastRun);
      SortedTail(ms);
      MissingSorted(ms[1..], existing, lastRun);
      forall k | 0 <= k < |rest| ensures !Less(rest[k].id, ms[0].id) {
        MissingMeans(ms[1..], existing, lastRun, rest[k]);
        var j :| 0 <= j < |ms[1..]| && ms[1..][j] == rest[k];
        assert ms[j + 1] == rest[k];
      }
      if ms[0].id !in Ids(existing) && Less(ms[0].id, lastRun) {
        SortedCons(ms[0], rest);
      }
    }
  }

  /** Whether a migration is picked up by catch-up. */
  predicate IsMissing(m: Migration, existing: seq<Migration>, lastRun: string) {
    m.id !in Ids(existing) && Less(m.id, lastRun)
  }

  /** One step of the catch-up loop: the planned list still owed after position `i`. */
  lemma CatchupStep(ms: seq<Migration>, i: nat, existing: seq<Migration>, lastRun: string, loader: Loader,
                    missing: seq<PlannedMigration>)
    requires i < |ms|
    requires LoadAll(Missing(ms, existing, lastRun), Up, loader) ==
      Prepend(missing, LoadAll(Missing(ms[i..], existing, lastRun), Up, loader))
    ensures !IsMissing(ms[i], existing, lastRun) ==>
      LoadAll(Missing(ms, existing, lastRun), Up, loader) ==
      Prepend(missing, LoadAll(Missing(ms[i + 1..], existing, lastRun), Up, loader))
    ensures IsMissing(ms[i], existing, lastRun) && Load(ms[i], loader).Err? ==>
      LoadAll(Missing(ms, existing, lastRun), Up, loader) == Err(Load(ms[i], loader).error)
    ensures IsMissing(ms[i], existing, lastRun) && Load(ms[i], loader).Ok? ==>
      LoadAll(Missing(ms, existing, lastRun), Up, loader) ==
      Prepend(missing + [Planned(Load(ms[i], loader).value, Up)], LoadAll(Missing(ms[i + 1..], existing, lastRun), Up, loader))
  {
    assert ms[i..][0] == ms[i] && ms[i..][1..] == ms[i + 1..];
    var rest := Missing(ms[i + 1..], existing, lastRun);
    if IsMissing(ms[i], existing, lastRun) {
      assert Missing(ms[i..], existing, lastRun) == [ms[i]] + rest;
      LoadAllCons(ms[i], rest, Up, loader);
      if Load(ms[i], loader).Ok? {
        PrependTwice(missing, [Planned(Load(ms[i], loader).value, Up)], LoadAll(rest, Up, loader));
      }
    } else {
      assert Missing(ms[i..], existing, lastRun) == [] + rest;
      assert [] + rest == rest;
    }
  }

  /** The inner search of the catch-up loop: whether a migration with this id is applied. */
  method IsApplied(existingMigrations: seq<Migration>, migration: Migration) returns (found: bool)
    ensures found <==> migration.id in Ids(existingMigrations)
  {
    found := false;
    for j := 0 to |existingMigrations|
      invariant !found
      invariant forall k :: 0 <= k < j ==> existingMigrations[k].id != migration.id
    {
      if existingMigrations[j].id == migration.id {
        assert Ids(existingMigrations)[j] == migration.id;
        found := true;
        break;
      }
    }
  }

  /** The catch-up list: each missing migration, loaded, planned with its up statements. */
  method ToCatchup(migrations: seq<Migration>, existingMigrations: seq<Migration>, lastRun: Migration, loader: Loader)
    returns (r: Result<seq<PlannedMigration>, string>)
    ensures r == LoadAll(Missing(migrations, existingMigrations, lastRun.id), Up, loader)
  {
    var missing: seq<PlannedMigration> := [];
    assert migrations[0..] == migrations;
    PrependNothing(LoadAll(Missing(migrations, existingMigrations, lastRun.id), Up, loader));
    for i := 0 to |migrations|
      invariant LoadAll(Missing(migrations, existingMigrations, lastRun.id), Up, loader) ==
        Prepend(missing, LoadAll(Missing(migrations[i..], existingMigrations, lastRun.id), Up, loader))
    {
      var migration := migrations[i];
      var found := IsApplied(existingMigrations, migration);
      CatchupStep(migrations, i, existingMigrations, lastRun.id, loader, missing);
      if !found && Less(migration.id, lastRun.id) {
        var loaded := Load(migration, loader);
        if loaded.Err? {
          return Err(loaded.error);
        }
        missing := missing + [Planned(loaded.value, Up)];
      }
    }
    assert migrations[|migrations|..] == [];
    assert LoadAll(Missing([], existingMigrations, lastRun.id), Up, loader) == Ok([]);
    assert missing + [] == missing;
    r := Ok(missing);
  }

  // ---------------------------------------------------------------------
  // The unknown-migration guard
  // ---------------------------------------------------------------------

  /** The first applied migration, in id order, that is not among the candidates. */
  function FirstUnknown(existing: seq<Migration>, ms: seq<Migration>): (r: Option<string>)
    ensures r.None? <==> forall j :: 0 <= j < |existing| ==> existing[j].id in Ids(ms)
    ensures r.Some? ==> r.value !in Ids(ms) && r.value in Ids(existing)
  {
    if |existing| == 0 then None
    else if existing[0].id !in Ids(ms) then Some(existing[0].id)
    else
      var r := FirstUnknown(existing[1..], ms);
      assert forall j :: 1 <= j < |existing| ==> existing[j] == existing[1..][j - 1];
      r
  }

  lemma {:induction false} FirstUnknownAt(existing: seq<Migration>, ms: seq<Migration>, i: nat)
    requires i < |existing| && existing[i].id !in Ids(ms)
    requires forall j :: 0 <= j < i ==> existing[j].id in Ids(ms)
    ensures FirstUnknown(existing, ms) == Some(existing[i].id)
  {
    if i > 0 {
      FirstUnknownAt(existing[1..], ms, i - 1);
    }
  }

  // ---------------------------------------------------------------------
  // Truncation by `max` and by target version
  // ---------------------------------------------------------------------

  /** How many selected migrations a limit of `max` lets through (0 or less means no limit). */
  function MaxCount(max: int, n: nat): (k: nat)
    ensures k <= n
  {
    if 0 < max < n then max else n
  }

  /** A migration the version walk passes over: numeric, not the target, and not beyond it. */
  predicate Passes(m: Migration, dir: Direction, version: int) {
    IsNumeric(m.id) && VersionInt(m.id) != version &&
    !(dir == Up && VersionInt(m.id) > version) && !(dir == Down && VersionInt(m.id) < version)
  }

  /** A migration the version walk stops at: its version is the target. */
  predicate Hits(m: Migration, version: int) {
    IsNumeric(m.id) && VersionInt(m.id) == version
  }

  /**
   * The target-version walk from position `from`: the number of selected
   * migrations up to and including the first one at the target version.
   * Going beyond the target, or running out, is a plan error; a
   * non-numeric id makes the source panic.
   */
  function VersionCount(s: seq<Migration>, dir: Direction, version: int, from: nat): (r: Result<nat, PlanFailure>)
    requires from <= |s|
    ensures r.Ok? ==> from < r.value <= |s|
    decreases |s| - from
  {
    if from == |s| then Err(VersionError(version))
    else if !IsNumeric(s[from].id) then Err(Panic(s[from].id))
    else
      var v := VersionInt(s[from].id);
      if (dir == Up && v > version) || (dir == Down && v < version) then Err(VersionError(version))
      else if v == version then Ok(from + 1)
      else VersionCount(s, dir, version, from + 1)
  }

  /** A successful walk ends on a migration at the target version, having passed over everything before it. */
  lemma {:induction false} VersionCountHit(s: seq<Migration>, dir: Direction, version: int, from: nat)
    requires from <= |s|
    requires VersionCount(s, dir, version, from).Ok?
    ensures Hits(s[VersionCount(s, dir, version, from).value - 1], version)
    ensures forall j :: from <= j < VersionCount(s, dir, version, from).value - 1 ==> Passes(s[j], dir, version)
    decreases |s| - from
  {
    var v := VersionInt(s[from].id);
    if v != version {
      assert Passes(s[from], dir, version);
      VersionCountHit(s, dir, version, from + 1);
    }
  }

  /** Running out of migrations before the target is a plan error. */
  lemma {:induction false} VersionCountExhausted(s: seq<Migration>, dir: Direction, version: int, from: nat)
    requires from <= |s|
    requires forall j :: from <= j < |s| ==> Passes(s[j], dir, version)
    ensures VersionCount(s, dir, version, from) == Err(VersionError(version))
    decreases |s| - from
  {
    if from < |s| {
      VersionCountExhausted(s, dir, version, from + 1);
    }
  }

  /** The walk panics only on an id without a leading number. */
  lemma {:induction false} VersionCountPanics(s: seq<Migration>, dir: Direction, version: int, from: nat)
    requires from <= |s|
    ensures VersionCount(s, dir, version, from).Err? && VersionCount(s, dir, version, from).error.Panic? ==>
      exists j :: from <= j < |s| && s[j].id == VersionCount(s, dir, version, from).error.id && !IsNumeric(s[j].id)
    decreases |s| - from
  {
    if from < |s| && IsNumeric(s[from].id) {
      VersionCountPanics(s, dir, version, from + 1);
    }
  }

  /** The walk succeeds exactly when the target is met before anything stops it, and then it ends there. */
  lemma {:induction false} VersionCountReaches(s: seq<Migration>, dir: Direction, version: int, from: nat, k: nat)
    requires from <= k < |s|
    requires forall j :: from <= j < k ==> Passes(s[j], dir, version)
    ensures Hits(s[k], version) ==> VersionCount(s, dir, version, from) == Ok(k + 1)
    ensures !Hits(s[k], version) && !Passes(s[k], dir, version) ==> VersionCount(s, dir, version, from).Err?
    decreases k - from
  {
    if from < k {
      VersionCountReaches(s, dir, version, from + 1, k);
    }
  }

  // ---------------------------------------------------------------------
  // Plan composition (`planMigrationCommon`)
  // ---------------------------------------------------------------------

  /** The id of the last applied migration in id order, or the empty id. */
  function LastRun(existing: seq<Migration>): string {
    if |existing| > 0 then existing[|existing| - 1].id else ""
  }

  /**
   * The plan for candidates `ms` (sorted by id) and the applied ids
   * `records`: the unknown-migration guard, then the catch-up list, then the
   * selection cut by the target version (`version` >= 0) or by `max`, loaded
   * and planned in `dir`.
   */
  function PlanOf(ms: seq<Migration>, records: seq<string>, dir: Direction, max: int, version: int,
                  ignoreUnknown: bool, loader: Loader): Result<seq<PlannedMigration>, PlanFailure>
  {
    var existing := SortById(BareMigrations(records));
    var unknown := if ignoreUnknown then None else FirstUnknown(existing, ms);
    if unknown.Some? then Err(PlanError(unknown.value, UnknownMessage))
    else PlanFrom(ms, existing, dir, max, version, loader)
  }

  /** The plan once the guard has passed, for the applied migrations `existing` in id order. */
  function PlanFrom(ms: seq<Migration>, existing: seq<Migration>, dir: Direction, max: int, version: int,
                    loader: Loader): Result<seq<PlannedMigration>, PlanFailure>
  {
    var lastRun := LastRun(existing);
    var catchUp := if |existing| > 0 then LoadAll(Missing(ms, existing, lastRun), Up, loader) else Ok([]);
    if catchUp.Err? then Err(LoadFailed(catchUp.error))
    else PlanSelected(catchUp.value, Applicable(ms, lastRun, dir), dir, max, version, loader)
  }

  /** How many selected migrations the plan keeps: up to the target version when there is one, else up to `max`. */
  function CountOf(toApply: seq<Migration>, dir: Direction, max: int, version: int): (r: Result<nat, PlanFailure>)
    ensures r.Ok? ==> r.value <= |toApply|
  {
    if version >= 0 then VersionCount(toApply, dir, version, 0) else Ok(MaxCount(max, |toApply|))
  }

  /** The selection cut by version or `max`, loaded and planned behind the catch-up list. */
  function PlanSelected(catchUp: seq<PlannedMigration>, toApply: seq<Migration>, dir: Direction, max: int,
                        version: int, loader: Loader): Result<seq<PlannedMigration>, PlanFailure>
  {
    var count := CountOf(toApply, dir, max, version);
    if count.Err? then Err(count.error)
    else
      var planned := LoadAll(toApply[..count.value], dir, loader);
      if planned.Err? then Err(LoadFailed(planned.error))
      else Ok(catchUp + planned.value)
  }

  /** The version walk inside plan composition. */
  method TargetCount(toApply: seq<Migration>, dir: Direction, version: int) returns (r: Result<nat, PlanFailure>)
    ensures r == VersionCount(toApply, dir, version, 0)
  {
    var targetIndex := 0;
    var toApplyCount := |toApply|;
    while targetIndex < |toApply|
      invariant 0 <= targetIndex <= |toApply|
      invariant VersionCount(toApply, dir, version, 0) == VersionCount(toApply, dir, version, targetIndex)
    {
      var id := toApply[targetIndex].id;
      if !IsNumeric(id) {
        return Err(Panic(id));
      }
      var tempVersion := VersionInt(id);
      assert VersionCount(toApply, dir, version, targetIndex) ==
        if (dir == Up && tempVersion > version) || (dir == Down && tempVersion < version) then Err(VersionError(version))
        else if tempVersion == version then Ok(targetIndex + 1)
        else VersionCount(toApply, dir, version, targetIndex + 1);
      if (dir == Up && tempVersion > version) || (dir == Down && tempVersion < version) {
        return Err(VersionError(version));
      }
      if tempVersion == version {
        toApplyCount := targetIndex + 1;
        break;
      }
      targetIndex := targetIndex + 1;
    }
    if targetIndex == |toApply| {
      return Err(VersionError(version));
    }
    r := Ok(toApplyCount);
  }

  /** The truncation step: the version walk when a target is given, otherwise the `max` cut. */
  method SelectCount(toApply: seq<Migration>, dir: Direction, max: int, version: int) returns (r: Result<nat, PlanFailure>)
    ensures r == CountOf(toApply, dir, max, version)
  {
    var toApplyCount := |toApply|;
    if version >= 0 {
      r := TargetCount(toApply, dir, version);
      return;
    } else if max > 0 && max < toApplyCount {
      toApplyCount := max;
    }
    r := Ok(toApplyCount);
  }

  /** Loading and planning the selected migrations, appending to the plan built so far. */
  method AppendPlanned(result: seq<PlannedMigration>, toApply: seq<Migration>, dir: Direction, loader: Loader)
    returns (r: Result<seq<PlannedMigration>, string>)
    ensures r == Prepend(result, LoadAll(toApply, dir, loader))
  {
    var plan := result;
    assert toApply[0..] == toApply;
    for i := 0 to |toApply|
      invariant Prepend(result, LoadAll(toApply, dir, loader)) == Prepend(plan, LoadAll(toApply[i..], dir, loader))
    {
      assert toApply[i..] == [toApply[i]] + toApply[i + 1..];
      LoadAllCons(toApply[i], toApply[i + 1..], dir, loader);
      var v := Load(toApply[i], loader);
      if v.Err? {
        return Err(v.error);
      }
      PrependTwice(plan, [Planned(v.value, dir)], LoadAll(toApply[i + 1..], dir, loader));
      plan := plan + [Planned(v.value, dir)];
    }
    assert toApply[|toApply|..] == [];
    assert plan + [] == plan;
    r := Ok(plan);
  }

  /** The guard's search set of candidate ids and its walk over the applied migrations in id order. */
  method CheckKnown(migrations: seq<Migration>, existingMigrations: seq<Migration>) returns (unknown: Option<string>)
    ensures unknown == FirstUnknown(existingMigrations, migrations)
  {
    var migrationsSearch: set<string> := {};
    for i := 0 to |migrations|
      invariant migrationsSearch == set j | 0 <= j < i :: migrations[j].id
    {
      migrationsSearch := migrationsSearch + {migrations[i].id};
    }
    assert forall x :: x in migrationsSearch <==> x in Ids(migrations);
    for i := 0 to |existingMigrations|
      invariant forall j :: 0 <= j < i ==> existingMigrations[j].id in Ids(migrations)
    {
      if existingMigrations[i].id !in migrationsSearch {
        FirstUnknownAt(existingMigrations, migrations, i);
        return Some(existingMigrations[i].id);
      }
    }
    return None;
  }

  /**
   * Plan composition as the source does it: a search set of candidate ids,
   * the guard over the sorted records, catch-up, selection, truncation and
   * loading.
   */
  method PlanMigrationCommon(migrations: seq<Migration>, records: seq<string>, dir: Direction, max: int,
                             version: int, ignoreUnknown: bool, loader: Loader)
    returns (r: Result<seq<PlannedMigration>, PlanFailure>)
    ensures r == PlanOf(migrations, records, dir, max, version, ignoreUnknown, loader)
  {
    var existingMigrations := SortById(BareMigrations(records));
    if !ignoreUnknown {
      var unknown := CheckKnown(migrations, existingMigrations);
      if unknown.Some? {
        return Err(PlanError(unknown.value, UnknownMessage));
      }
    }
    r := PlanKnown(migrations, existingMigrations, dir, max, version, loader);
  }

  /** Plan composition past the guard: the last applied record, catch-up, selection, truncation, loading. */
  method PlanKnown(migrations: seq<Migration>, existingMigrations: seq<Migration>, dir: Direction, max: int,
                   version: int, loader: Loader)
    returns (r: Result<seq<PlannedMigration>, PlanFailure>)
    ensures r == PlanFrom(migrations, existingMigrations, dir, max, version, loader)
  {
    var record := Migration("", [], [], false, false, None);
    if |existingMigrations| > 0 {
      record := existingMigrations[|existingMigrations| - 1];
    }
    assert record.id == LastRun(existingMigrations);

    var result: seq<PlannedMigration> := [];
    if |existingMigrations| > 0 {
      var catchUp := ToCatchup(migrations, existingMigrations, record, loader);
      if catchUp.Err? {
        return Err(LoadFailed(catchUp.error));
      }
      assert result + catchUp.value == catchUp.value;
      result := result + catchUp.value;
    }

    var toApply := ToApply(migrations, record.id, dir);
    assert PlanFrom(migrations, existingMigrations, dir, max, version, loader) ==
      PlanSelected(result, toApply, dir, max, version, loader);
    var count := SelectCount(toApply, dir, max, version);
    if count.Err? {
      return Err(count.error);
    }
    var toApplyCount := count.value;

    var planned := AppendPlanned(result, toApply[..toApplyCount], dir, loader);
    if planned.Err? {
      return Err(LoadFailed(planned.error));
    }
    r := Ok(planned.value);
  }

  // ---------------------------------------------------------------------
  // What a plan is
  // ---------------------------------------------------------------------

  /** The applied migrations, sorted, carry exactly the recorded ids. */
  lemma {:induction false} SortedRecordIds(records: seq<string>, x: string)
    ensures x in Ids(SortById(BareMigrations(records))) <==> x in records
  {
    var bare := BareMigrations(records);
    var sorted := SortById(bare);
    SortByIdCorrect(bare);
    if x in records {
      var i :| 0 <= i < |records| && records[i] == x;
      assert bare[i] in multiset(sorted);
      var j :| 0 <= j < |sorted| && sorted[j] == bare[i];
      assert Ids(sorted)[j] == x;
    }
    if x in Ids(sorted) {
      var j :| 0 <= j < |sorted| && Ids(sorted)[j] == x;
      assert sorted[j] in multiset(bare);
      var i :| 0 <= i < |bare| && bare[i] == sorted[j];
      assert records[i] == x;
    }
  }

  /**
   * Unless unknown migrations are ignored, an applied id that is not among
   * the candidates yields a plan error about such an id and no plan, in
   * either direction and whatever the limits.
   */
  lemma UnknownMigrationRejected(ms: seq<Migration>, records: seq<string>, dir: Direction, max: int,
                                 version: int, loader: Loader, u: string)
    requires u in records && u !in Ids(ms)
    ensures var r := PlanOf(ms, records, dir, max, version, false, loader);
      r.Err? && r.error.PlanError? && r.error.message == UnknownMessage &&
      r.error.migrationId in records && r.error.migrationId !in Ids(ms)
  {
    var existing := SortById(BareMigrations(records));
    SortedRecordIds(records, u);
    var j :| 0 <= j < |existing| && Ids(existing)[j] == u;
    assert existing[j].id !in Ids(ms);
    var f := FirstUnknown(existing, ms);
    SortedRecordIds(records, f.value);
  }

  /** When every applied id is known, or unknown ones are ignored, the guard lets planning go on. */
  lemma KnownMigrationsPass(ms: seq<Migration>, records: seq<string>, dir: Direction, max: int,
                            version: int, ignoreUnknown: bool, loader: Loader)
    requires ignoreUnknown || forall x :: x in records ==> x in Ids(ms)
    ensures PlanOf(ms, records, dir, max, version, ignoreUnknown, loader) ==
      PlanFrom(ms, SortById(BareMigrations(records)), dir, max, version, loader)
  {
    if !ignoreUnknown {
      var existing := SortById(BareMigrations(records));
      forall j | 0 <= j < |existing| ensures existing[j].id in Ids(ms) {
        assert Ids(existing)[j] == existing[j].id;
        SortedRecordIds(records, existing[j].id);
      }
    }
  }

  /**
   * With migrations loaded and no target version, the plan is the whole
   * catch-up list with up statements (only when something is applied),
   * followed by the first `max` selected migrations (all of them when `max`
   * is not between 0 and their number) in the run's direction: the limit
   * never cuts the catch-up list.
   */
  lemma PlanWithLimit(ms: seq<Migration>, records: seq<string>, dir: Direction, max: int,
                      ignoreUnknown: bool, loader: Loader)
    requires forall k :: 0 <= k < |ms| ==> IsLoaded(ms[k])
    requires ignoreUnknown || forall x :: x in records ==> x in Ids(ms)
    ensures var existing := SortById(BareMigrations(records));
      var catchUp := if |records| > 0 then Missing(ms, existing, LastRun(existing)) else [];
      var toApply := Applicable(ms, LastRun(existing), dir);
      PlanOf(ms, records, dir, max, -1, ignoreUnknown, loader) ==
        Ok(PlannedAll(catchUp, Up) + PlannedAll(toApply[..MaxCount(max, |toApply|)], dir))
  {
    KnownMigrationsPass(ms, records, dir, max, -1, ignoreUnknown, loader);
    var existing := SortById(BareMigrations(records));
    SortByIdCorrect(BareMigrations(records));
    assert |existing| == |records| by {
      assert |multiset(existing)| == |multiset(BareMigrations(records))|;
    }
    PlanFromByLimit(ms, existing, dir, max, loader);
  }

  /** `PlanWithLimit` once the guard has passed. */
  lemma PlanFromByLimit(ms: seq<Migration>, existing: seq<Migration>, dir: Direction, max: int, loader: Loader)
    requires forall k :: 0 <= k < |ms| ==> IsLoaded(ms[k])
    ensures var catchUp := if |existing| > 0 then Missing(ms, existing, LastRun(existing)) else [];
      var toApply := Applicable(ms, LastRun(existing), dir);
      PlanFrom(ms, existing, dir, max, -1, loader) ==
        Ok(PlannedAll(catchUp, Up) + PlannedAll(toApply[..MaxCount(max, |toApply|)], dir))
  {
    var lastRun := LastRun(existing);
    var catchUp := if |existing| > 0 then Missing(ms, existing, lastRun) else [];
    var toApply := Applicable(ms, lastRun, dir);
    var n := MaxCount(max, |toApply|);
    if |existing| > 0 {
      MissingFromLoaded(ms, existing, lastRun);
    }
    LoadAllLoaded(catchUp, Up, loader);
    var c := LoadAll(catchUp, Up, loader);
    assert PlanFrom(ms, existing, dir, max, -1, loader) == PlanSelected(c.value, toApply, dir, max, -1, loader);
    ApplicableFromLoaded(ms, lastRun, dir);
    assert forall k :: 0 <= k < n ==> toApply[..n][k] == toApply[k];
    LoadAllLoaded(toApply[..n], dir, loader);
    PlanSelectedByLimit(c.value, toApply, dir, max, loader);
  }

  /** Without a target version the selection is cut to `max` and put behind the catch-up list. */
  lemma PlanSelectedByLimit(catchUp: seq<PlannedMigration>, toApply: seq<Migration>, dir: Direction, max: int,
                            loader: Loader)
    requires LoadAll(toApply[..MaxCount(max, |toApply|)], dir, loader).Ok?
    ensures PlanSelected(catchUp, toApply, dir, max, -1, loader) ==
      Ok(catchUp + LoadAll(toApply[..MaxCount(max, |toApply|)], dir, loader).value)
  {
  }

  lemma ApplicableFromLoaded(ms: seq<Migration>, current: string, dir: Direction)
    requires forall k :: 0 <= k < |ms| ==> IsLoaded(ms[k])
    ensures forall k :: 0 <= k < |Applicable(ms, current, dir)| ==> IsLoaded(Applicable(ms, current, dir)[k])
  {
    var idx := if current == "" then -1 else FirstMatch(ms, current);
    var a := Applicable(ms, current, dir);
    forall k | 0 <= k < |a| ensures IsLoaded(a[k]) {
      if dir == Up {
        assert a[k] == ms[idx + 1 + k];
      } else {
        assert a[k] == ms[..idx + 1][idx - k];
      }
    }
  }

  lemma MissingFromLoaded(ms: seq<Migration>, existing: seq<Migration>, lastRun: string)
    requires forall k :: 0 <= k < |ms| ==> IsLoaded(ms[k])
    ensures forall k :: 0 <= k < |Missing(ms, existing, lastRun)| ==> IsLoaded(Missing(ms, existing, lastRun)[k])
  {
    var m := Missing(ms, existing, lastRun);
    forall k | 0 <= k < |m| ensures IsLoaded(m[k]) {
      MissingMeans(ms, existing, lastRun, m[k]);
    }
  }

  /** A fresh database: going up plans the first `max` migrations (or all), going down plans nothing. */
  lemma PlanFromScratch(ms: seq<Migration>, max: int, ignoreUnknown: bool, loader: Loader)
    requires forall k :: 0 <= k < |ms| ==> IsLoaded(ms[k])
    ensures PlanOf(ms, [], Up, max, -1, ignoreUnknown, loader) == Ok(PlannedAll(ms[..MaxCount(max, |ms|)], Up))
    ensures PlanOf(ms, [], Down, max, -1, ignoreUnknown, loader) == Ok([])
  {
    PlanWithLimit(ms, [], Up, max, ignoreUnknown, loader);
    PlanWithLimit(ms, [], Down, max, ignoreUnknown, loader);
    ApplicableFromScratch(ms);
    assert BareMigrations([]) == [] && SortById([]) == [];
    assert PlannedAll([], Up) == [] && [] + PlannedAll(ms[..MaxCount(max, |ms|)], Up) == PlannedAll(ms[..MaxCount(max, |ms|)], Up);
    var none: seq<Migration> := [];
    assert LastRun(SortById(BareMigrations([]))) == "";
    assert Applicable(ms, "", Down)[..MaxCount(max, 0)] == none;
    assert PlannedAll(none, Down) == [] && PlannedAll(none, Up) == [];
    var empty: seq<PlannedMigration> := [];
    assert PlannedAll(none, Up) + PlannedAll(none, Down) == empty;
    assert PlanOf(ms, [], Down, max, -1, ignoreUnknown, loader) == Ok(empty);
  }

  /**
   * A target version is inclusive: a plan made for it is never empty, and
   * its last step is the migration at that version, planned in the run's
   * direction.
   */
  lemma PlanToVersionEndsAtTarget(ms: seq<Migration>, records: seq<string>, dir: Direction, version: int,
                                  ignoreUnknown: bool, loader: Loader)
    requires version >= 0
    requires PlanOf(ms, records, dir, 0, version, ignoreUnknown, loader).Ok?
    ensures var p := PlanOf(ms, records, dir, 0, version, ignoreUnknown, loader).value;
      |p| > 0 && Hits(p[|p| - 1].migration, version) && p[|p| - 1] == Planned(p[|p| - 1].migration, dir)
  {
    var existing := SortById(BareMigrations(records));
    assert PlanOf(ms, records, dir, 0, version, ignoreUnknown, loader) == PlanFrom(ms, existing, dir, 0, version, loader);
    PlanFromReaches(ms, existing, dir, version, loader);
  }

  lemma PlanFromReaches(ms: seq<Migration>, existing: seq<Migration>, dir: Direction, version: int, loader: Loader)
    requires version >= 0
    requires PlanFrom(ms, existing, dir, 0, version, loader).Ok?
    ensures var p := PlanFrom(ms, existing, dir, 0, version, loader).value;
      |p| > 0 && Hits(p[|p| - 1].migration, version) && p[|p| - 1] == Planned(p[|p| - 1].migration, dir)
  {
    var lastRun := LastRun(existing);
    var toApply := Applicable(ms, lastRun, dir);
    var c := if |existing| > 0 then LoadAll(Missing(ms, existing, lastRun), Up, loader) else Ok([]);
    assert c.Ok?;
    assert PlanFrom(ms, existing, dir, 0, version, loader) == PlanSelected(c.value, toApply, dir, 0, version, loader);
    PlanSelectedReaches(c.value, toApply, dir, version, loader);
  }

  /** A selection cut at a target version ends with a migration at that version. */
  lemma PlanSelectedReaches(catchUp: seq<PlannedMigration>, toApply: seq<Migration>, dir: Direction, version: int,
                            loader: Loader)
    requires version >= 0
    requires PlanSelected(catchUp, toApply, dir, 0, version, loader).Ok?
    ensures var p := PlanSelected(catchUp, toApply, dir, 0, version, loader).value;
      |p| > 0 && Hits(p[|p| - 1].migration, version) && p[|p| - 1] == Planned(p[|p| - 1].migration, dir)
  {
    var count := VersionCount(toApply, dir, version, 0);
    VersionCountHit(toApply, dir, version, 0);
    var k := count.value;
    var planned := LoadAll(toApply[..k], dir, loader);
    var last := toApply[k - 1];
    assert toApply[..k][k - 1] == last;
    var p := catchUp + planned.value;
    assert p[|p| - 1] == planned.value[k - 1];
  }

  /** A plan for a target version fails when no selected migration reaches it first. */
  lemma PlanToVersionUnreached(ms: seq<Migration>, records: seq<string>, dir: Direction, version: int,
                               ignoreUnknown: bool, loader: Loader)
    requires version >= 0
    requires ignoreUnknown || forall x :: x in records ==> x in Ids(ms)
    requires var existing := SortById(BareMigrations(records));
      |existing| == 0 || LoadAll(Missing(ms, existing, LastRun(existing)), Up, loader).Ok?
    requires var existing := SortById(BareMigrations(records));
      var toApply := Applicable(ms, LastRun(existing), dir);
      forall j :: 0 <= j < |toApply| ==> Passes(toApply[j], dir, version)
    ensures PlanOf(ms, records, dir, 0, version, ignoreUnknown, loader) == Err(VersionError(version))
  {
    KnownMigrationsPass(ms, records, dir, 0, version, ignoreUnknown, loader);
    var existing := SortById(BareMigrations(records));
    VersionCountExhausted(Applicable(ms, LastRun(existing), dir), dir, version, 0);
  }

  // ---------------------------------------------------------------------
  // Repeated runs
  // ---------------------------------------------------------------------

  /** Sorting the records keeps their number. */
  lemma SortedRecordsLength(records: seq<string>)
    ensures |SortById(BareMigrations(records))| == |records|
  {
    SortByIdCorrect(BareMigrations(records));
    assert |multiset(SortById(BareMigrations(records)))| == |multiset(BareMigrations(records))|;
  }

  /** The last applied id in id order is itself applied, and no applied id sorts above it. */
  lemma LastRunIsMax(records: seq<string>, x: string)
    requires x in records
    ensures LastRun(SortById(BareMigrations(records))) in records
    ensures !Less(LastRun(SortById(BareMigrations(records))), x)
  {
    var existing := SortById(BareMigrations(records));
    SortByIdCorrect(BareMigrations(records));
    forall y ensures y in Ids(existing) <==> y in records {
      SortedRecordIds(records, y);
    }
    LastOfSorted(existing, records, x);
  }

  /** The last of a sorted list carrying exactly the recorded ids is recorded, and sorts below none of them. */
  lemma LastOfSorted(existing: seq<Migration>, records: seq<string>, x: string)
    requires SortedById(existing) && x in records
    requires forall y :: y in Ids(existing) <==> y in records
    ensures LastRun(existing) in records && !Less(LastRun(existing), x)
  {
    assert x in Ids(existing);
    var i :| 0 <= i < |existing| && Ids(existing)[i] == x;
    var n := |existing|;
    assert Ids(existing)[n - 1] == LastRun(existing);
    if i == n - 1 {
      LessIrreflexive(x);
    }
  }

  /**
   * Among sorted candidates with distinct ids that include every applied id,
   * the last applied id has one position: every candidate before it sorts
   * below it, and no candidate after it is applied.
   */
  lemma LastRunAt(ms: seq<Migration>, records: seq<string>) returns (i: nat)
    requires SortedById(ms) && DistinctIds(ms) && |records| > 0
    requires forall x :: x in records ==> x in Ids(ms)
    ensures i < |ms| && ms[i].id == LastRun(SortById(BareMigrations(records))) && ms[i].id in records
    ensures forall j :: 0 <= j < i ==> ms[j].id != ms[i].id && Less(ms[j].id, ms[i].id)
    ensures forall j :: i < j < |ms| ==> ms[j].id !in records
  {
    var lastRun := LastRun(SortById(BareMigrations(records)));
    LastRunIsMax(records, records[0]);
    assert lastRun in Ids(ms);
    var k :| 0 <= k < |ms| && Ids(ms)[k] == lastRun;
    i := k;
    forall j | 0 <= j < i ensures ms[j].id != ms[i].id && Less(ms[j].id, ms[i].id) {
      LessConnected(ms[j].id, ms[i].id);
    }
    forall j | i < j < |ms| ensures ms[j].id !in records {
      LessConnected(ms[i].id, ms[j].id);
      if ms[j].id in records {
        LastRunIsMax(records, ms[j].id);
      }
    }
  }

  /** The selection walks only over candidates. */
  lemma ApplicableWithin(ms: seq<Migration>, current: string, dir: Direction, k: int)
    requires 0 <= k < |Applicable(ms, current, dir)|
    ensures Applicable(ms, current, dir)[k] in ms
  {
    var idx := if current == "" then -1 else FirstMatch(ms, current);
    if dir == Up {
      var after := ms[idx + 1..];
      assert after[k] == ms[idx + 1 + k];
    } else {
      var upTo := ms[..idx + 1];
      assert Reversed(upTo)[k] == upTo[idx - k] == ms[idx - k];
    }
  }

  /** When the records are exactly the candidate ids, there are records exactly when there are candidates. */
  lemma CandidatesRecorded(ms: seq<Migration>, records: seq<string>)
    requires forall x :: x in records <==> x in Ids(ms)
    ensures |ms| > 0 <==> |records| > 0
  {
    if |ms| > 0 {
      assert Ids(ms)[0] in records;
    }
    if |records| > 0 {
      assert records[0] in Ids(ms);
    }
  }

  /**
   * A database that records every candidate id, and nothing else, has
   * nothing left to apply going up, whatever the limit: the catch-up list
   * is empty and the last applied id is the last candidate.
   */
  lemma NothingLeftToApply(ms: seq<Migration>, records: seq<string>, max: int, ignoreUnknown: bool, loader: Loader)
    requires SortedById(ms) && DistinctIds(ms) && "" !in Ids(ms)
    requires forall x :: x in records <==> x in Ids(ms)
    ensures PlanOf(ms, records, Up, max, -1, ignoreUnknown, loader) == Ok([])
  {
    KnownMigrationsPass(ms, records, Up, max, -1, ignoreUnknown, loader);
    var existing := SortById(BareMigrations(records));
    SortedRecordsLength(records);
    var lastRun := LastRun(existing);
    var none: seq<Migration> := [];
    var c: Result<seq<PlannedMigration>, string> := Ok([]);
    if |records| == 0 {
      CandidatesRecorded(ms, records);
      assert Applicable(ms, lastRun, Up) == none;
      assert PlanFrom(ms, existing, Up, max, -1, loader) == PlanSelected([], none, Up, max, -1, loader);
    } else {
      var i := LastRunAt(ms, records);
      assert i == |ms| - 1 by {
        assert Ids(ms)[|ms| - 1] == ms[|ms| - 1].id;
      }
      assert lastRun != "" by {
        assert Ids(ms)[i] == lastRun;
      }
      ApplicableAt(ms, lastRun, i);
      assert Applicable(ms, lastRun, Up) == none;
      var missing := Missing(ms, existing, lastRun);
      if |missing| > 0 {
        MissingMeans(ms, existing, lastRun, missing[0]);
        var k :| 0 <= k < |ms| && ms[k] == missing[0];
        assert Ids(ms)[k] == missing[0].id;
        SortedRecordIds(records, missing[0].id);
      }
      assert missing == none;
      assert LoadAll(missing, Up, loader) == c;
      assert PlanFrom(ms, existing, Up, max, -1, loader) == PlanSelected([], none, Up, max, -1, loader);
    }
    assert MaxCount(max, 0) == 0 && none[..0] == none;
    assert LoadAll(none, Up, loader) == c;
    var nothing: seq<PlannedMigration> := [];
    assert nothing + nothing == nothing;
    assert PlanSelected(nothing, none, Up, max, -1, loader) == Ok(nothing);
  }

  /** With nothing recorded, going down has nothing to undo, whatever the limit. */
  lemma NothingToUndo(ms: seq<Migration>, max: int, ignoreUnknown: bool, loader: Loader)
    ensures PlanOf(ms, [], Down, max, -1, ignoreUnknown, loader) == Ok([])
  {
    var existing := SortById(BareMigrations([]));
    assert BareMigrations([]) == [] && existing == [];
    var none: seq<Migration> := [];
    var nothing: seq<PlannedMigration> := [];
    assert Applicable(ms, LastRun(existing), Down) == none;
    assert MaxCount(max, 0) == 0 && none[..0] == none;
    assert LoadAll(none, Down, loader) == Ok(nothing);
    assert nothing + nothing == nothing;
    assert PlanFrom(ms, existing, Down, max, -1, loader) == PlanSelected(nothing, none, Down, max, -1, loader);
  }

  /**
   * An empty id reads as "nothing applied": when the empty id is the last
   * applied one, the next up plan selects its migration again, so the
   * repeated-run lemmas need non-empty ids. The empty id sorts after the
   * numeric ids and before the other non-numeric ones, so it is the last
   * applied id exactly when every other recorded id is numeric; this lemma
   * shows the case where it is the only one.
   */
  lemma EmptyIdReplanned(m: Migration, loader: Loader)
    requires m.id == "" && IsLoaded(m)
    ensures PlanOf([m], [""], Up, 0, -1, false, loader) == Ok([Planned(m, Up)])
  {
    assert Ids([m])[0] == "";
    PlanWithLimit([m], [""], Up, 0, false, loader);
    var existing := SortById(BareMigrations([""]));
    SortedRecordIds([""], "");
    SortedRecordsLength([""]);
    var lastRun := LastRun(existing);
    assert lastRun in Ids(existing);
    assert lastRun == "" by {
      var k :| 0 <= k < |existing| && Ids(existing)[k] == lastRun;
      SortedRecordIds([""], lastRun);
    }
    MissingMeans([m], existing, lastRun, m);
    assert Missing([m], existing, lastRun) == [];
    assert Applicable([m], lastRun, Up) == [m];
    assert MaxCount(0, 1) == 1 && [m][..1] == [m];
    var none: seq<Migration> := [];
    assert PlannedAll(none, Up) == [] && PlannedAll([m], Up) == [Planned(m, Up)];
    assert PlanOf([m], [""], Up, 0, -1, false, loader) == Ok(PlannedAll(none, Up) + PlannedAll([m][..1], Up));
    assert PlannedAll(none, Up) + PlannedAll([m][..1], Up) == [Planned(m, Up)];
  }
}
