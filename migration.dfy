/**
 * Migrations as values: their identity, their lazily loaded bodies, the
 * direction-bound planned form, the id sort used by every source, the
 * in-memory source and the name filter of the packr source.
 */
module Migrations {
  import opened Wrappers
  import opened Ordering

  datatype Direction = Up | Down

  /** Where a lazily loaded migration's file lives. */
  datatype MigrationFile = MigrationFile(root: string, baseName: string)

  /** What the external SQL-file parser produces for one file. */
  datatype ParsedMigration = ParsedMigration(
    upStatements: seq<string>,
    downStatements: seq<string>,
    disableTransactionUp: bool,
    disableTransactionDown: bool)

  /** Why opening or parsing a migration file failed (the reason text comes from outside). */
  datatype LoadFailure = OpenFailed(reason: string) | ParseFailed(reason: string)

  /** Opening and parsing a migration file: file system and parser are not part of this model. */
  type Loader = MigrationFile -> Result<ParsedMigration, LoadFailure>

  /**
   * A migration. `lazyLoadFile` is `Some` while the body has not been read
   * yet (the migration is pending) and `None` once it is loaded.
   */
  datatype Migration = Migration(
    id: string,
    up: seq<string>,
    down: seq<string>,
    disableTransactionUp: bool,
    disableTransactionDown: bool,
    lazyLoadFile: Option<MigrationFile>)

  /** A migration bound to a direction: the statements to run and whether to run them outside a transaction. */
  datatype PlannedMigration = PlannedMigration(
    migration: Migration,
    disableTransaction: bool,
    queries: seq<string>)

  predicate IsLoaded(m: Migration) {
    m.lazyLoadFile.None?
  }

  /**
   * Reads a pending migration's body; a loaded migration is returned as it is.
   * Failing to open or to parse the file gives the source's error text.
   */
  function Load(m: Migration, loader: Loader): (r: Result<Migration, string>)
    ensures IsLoaded(m) ==> r == Ok(m)
    ensures r.Ok? ==> IsLoaded(r.value) && r.value.id == m.id
    ensures !IsLoaded(m) ==> (r.Ok? <==> loader(m.lazyLoadFile.value).Ok?)
    ensures !IsLoaded(m) && r.Ok? ==>
      var p := loader(m.lazyLoadFile.value).value;
      r.value.up == p.upStatements && r.value.down == p.downStatements &&
      r.value.disableTransactionUp == p.disableTransactionUp &&
      r.value.disableTransactionDown == p.disableTransactionDown
    ensures !IsLoaded(m) && loader(m.lazyLoadFile.value).Err? && loader(m.lazyLoadFile.value).error.OpenFailed? ==>
      r == Err("Error while opening " + m.lazyLoadFile.value.baseName + ": " + loader(m.lazyLoadFile.value).error.reason)
    ensures !IsLoaded(m) && loader(m.lazyLoadFile.value).Err? && loader(m.lazyLoadFile.value).error.ParseFailed? ==>
      r == Err("Error parsing migration (" + m.id + "): " + loader(m.lazyLoadFile.value).error.reason)
  {
    match m.lazyLoadFile
    case None => Ok(m)
    case Some(file) =>
      match loader(file)
      case Err(OpenFailed(reason)) => Err("Error while opening " + file.baseName + ": " + reason)
      case Err(ParseFailed(reason)) => Err("Error parsing migration (" + m.id + "): " + reason)
      case Ok(p) =>
        Ok(m.(up := p.upStatements, down := p.downStatements,
              disableTransactionUp := p.disableTransactionUp,
              disableTransactionDown := p.disableTransactionDown,
              lazyLoadFile := None))
  }

  /** Loading is done at most once: loading a loaded migration changes nothing. */
  lemma LoadIdempotent(m: Migration, loader: Loader, loader': Loader)
    requires Load(m, loader).Ok?
    ensures Load(Load(m, loader).value, loader') == Load(m, loader)
  {
  }

  /** The planned form of a migration in the given direction. */
  function Planned(m: Migration, dir: Direction): (p: PlannedMigration)
    ensures p.migration == m
    ensures dir == Up ==> p.queries == m.up && p.disableTransaction == m.disableTransactionUp
    ensures dir == Down ==> p.queries == m.down && p.disableTransaction == m.disableTransactionDown
  {
    match dir
    case Up => PlannedMigration(m, m.disableTransactionUp, m.up)
    case Down => PlannedMigration(m, m.disableTransactionDown, m.down)
  }

  function Ids(s: seq<Migration>): (r: seq<string>)
    ensures |r| == |s| && forall i :: 0 <= i < |s| ==> r[i] == s[i].id
  {
    if |s| == 0 then [] else [s[0].id] + Ids(s[1..])
  }

  // ---------------------------------------------------------------------
  // Sorting by id (what `sort.Sort(byId(...))` computes)
  // ---------------------------------------------------------------------

  /** No element is followed by one with a smaller id. */
  ghost predicate SortedById(s: seq<Migration>) {
    forall i, j :: 0 <= i < j < |s| ==> !Less(s[j].id, s[i].id)
  }

  ghost predicate DistinctIds(s: seq<Migration>) {
    forall i, j :: 0 <= i < j < |s| ==> s[i].id != s[j].id
  }

  function InsertById(x: Migration, s: seq<Migration>): seq<Migration> {
    if |s| == 0 then [x]
    else if Less(s[0].id, x.id) then [s[0]] + InsertById(x, s[1..])
    else [x] + s
  }

  /** Insertion sort on ids; it stands for the library sort the source calls. */
  function SortById(s: seq<Migration>): seq<Migration> {
    if |s| == 0 then [] else InsertById(s[0], SortById(s[1..]))
  }

  lemma {:induction false} InsertByIdElements(x: Migration, s: seq<Migration>)
    ensures multiset(InsertById(x, s)) == multiset(s) + multiset{x}
  {
    if |s| > 0 && Less(s[0].id, x.id) {
      InsertByIdElements(x, s[1..]);
      assert s == [s[0]] + s[1..];
    }
  }

  /** Putting in front an element no later element is below keeps a sequence sorted. */
  lemma SortedCons(y: Migration, s: seq<Migration>)
    requires SortedById(s)
    requires forall k :: 0 <= k < |s| ==> !Less(s[k].id, y.id)
    ensures SortedById([y] + s)
  {
    var r := [y] + s;
    forall i, j | 0 <= i < j < |r| ensures !Less(r[j].id, r[i].id) {
      assert r[j] == s[j - 1];
      if i > 0 { assert r[i] == s[i - 1]; }
    }
  }

  /** Nothing in a sorted sequence is below an element that is not above its head. */
  lemma NotBelowHead(x: Migration, s: seq<Migration>)
    requires SortedById(s) && |s| > 0
    requires !Less(s[0].id, x.id)
    ensures forall k :: 0 <= k < |s| ==> !Less(s[k].id, x.id)
  {
    forall k | 0 <= k < |s| ensures !Less(s[k].id, x.id) {
      if k > 0 && Less(s[k].id, x.id) {
        assert !Less(s[k].id, s[0].id);
        if x.id != s[0].id {
          LessConnected(x.id, s[0].id);
          LessTransitive(s[k].id, x.id, s[0].id);
        }
      }
    }
  }

  lemma {:induction false} InsertByIdSorted(x: Migration, s: seq<Migration>)
    requires SortedById(s)
    ensures SortedById(InsertById(x, s))
  {
    if |s| == 0 {
    } else if Less(s[0].id, x.id) {
      var rest := InsertById(x, s[1..]);
      InsertByIdSorted(x, s[1..]);
      InsertByIdElements(x, s[1..]);
      forall k | 0 <= k < |rest| ensures !Less(rest[k].id, s[0].id) {
        assert rest[k] in multiset(rest);
        if rest[k] == x {
          LessAsymmetric(s[0].id, x.id);
        } else {
          assert rest[k] in multiset(s[1..]);
          var j :| 0 <= j < |s[1..]| && s[1..][j] == rest[k];
          assert s[j + 1] == rest[k];
        }
      }
      SortedCons(s[0], rest);
    } else {
      NotBelowHead(x, s);
      SortedCons(x, s);
    }
  }

  /** The sort returns the same migrations, in id order. */
  lemma {:induction false} SortByIdCorrect(s: seq<Migration>)
    ensures SortedById(SortById(s))
    ensures multiset(SortById(s)) == multiset(s)
  {
    if |s| > 0 {
      SortByIdCorrect(s[1..]);
      InsertByIdSorted(s[0], SortById(s[1..]));
      InsertByIdElements(s[0], SortById(s[1..]));
      assert s == [s[0]] + s[1..];
    }
  }

  /**
   * With distinct ids there is only one sorted arrangement, so any sorting
   * algorithm (in particular the library's unstable one) agrees with `SortById`.
   */
  lemma {:induction false} SortedArrangementUnique(a: seq<Migration>, b: seq<Migration>)
    requires SortedById(a) && SortedById(b) && DistinctIds(a)
    requires multiset(a) == multiset(b)
    ensures a == b
  {
    assert |a| == |multiset(a)| == |multiset(b)| == |b|;
    if |a| > 0 {
      SortedHeadsEqual(a, b);
      MultisetOfTail(a);
      MultisetOfTail(b);
      SortedTail(a);
      SortedTail(b);
      assert DistinctIds(a[1..]) by {
        forall i, j | 0 <= i < j < |a[1..]| ensures a[1..][i].id != a[1..][j].id {
          assert a[1..][i] == a[i + 1] && a[1..][j] == a[j + 1];
        }
      }
      SortedArrangementUnique(a[1..], b[1..]);
      assert a == [a[0]] + a[1..] && b == [b[0]] + b[1..];
    }
  }

  lemma MultisetOfTail(a: seq<Migration>)
    requires |a| > 0
    ensures multiset(a[1..]) == multiset(a) - multiset{a[0]}
  {
    assert a == [a[0]] + a[1..];
  }

  lemma SortedTail(a: seq<Migration>)
    requires |a| > 0 && SortedById(a)
    ensures SortedById(a[1..])
  {
    forall i, j | 0 <= i < j < |a[1..]| ensures !Less(a[1..][j].id, a[1..][i].id) {
      assert a[1..][i] == a[i + 1] && a[1..][j] == a[j + 1];
    }
  }

  /** Two sorted arrangements of the same distinct-id migrations start alike. */
  lemma SortedHeadsEqual(a: seq<Migration>, b: seq<Migration>)
    requires SortedById(a) && SortedById(b) && DistinctIds(a)
    requires multiset(a) == multiset(b) && |a| > 0 && |b| > 0
    ensures a[0] == b[0]
  {
    assert a[0] in multiset(b) && b[0] in multiset(a);
    var ja :| 0 <= ja < |b| && b[ja] == a[0];
    var jb :| 0 <= jb < |a| && a[jb] == b[0];
    if a[0] != b[0] {
      assert ja != 0 && jb != 0;
      assert !Less(b[ja].id, b[0].id);
      assert !Less(a[jb].id, a[0].id);
      assert a[0].id != a[jb].id;
      LessConnected(a[0].id, b[0].id);
    }
  }

  /** A hard-coded list of migrations kept in memory. */
  datatype MemoryMigrationSource = MemoryMigrationSource(migrations: seq<Migration>)

  /**
   * The migrations of an in-memory source, sorted by id. The source value
   * itself is left as it is: the sort works on a copy.
   */
  function FindMigrations(src: MemoryMigrationSource): (r: seq<Migration>)
    ensures SortedById(r)
    ensures multiset(r) == multiset(src.migrations)
  {
    SortByIdCorrect(src.migrations);
    SortById(src.migrations)
  }

  /** Migrations that carry nothing but an id, as the planner builds them from records. */
  function BareMigrations(ids: seq<string>): (r: seq<Migration>)
    ensures |r| == |ids| && forall i :: 0 <= i < |ids| ==> r[i] == Migration(ids[i], [], [], false, false, None)
  {
    if |ids| == 0 then [] else [Migration(ids[0], [], [], false, false, None)] + BareMigrations(ids[1..])
  }

  /** Numeric ids whose leading integers increase are in order, whatever follows the digits. */
  lemma LessRendered(m: nat, n: nat, x: string, y: string)
    requires m < n
    requires |x| == 0 || !IsDigit(x[0])
    requires |y| == 0 || !IsDigit(y[0])
    requires '\n' !in x && '\n' !in y
    ensures Less(Decimal(m) + x, Decimal(n) + y)
  {
    VersionIntOfRendered(m, x);
    VersionIntOfRendered(n, y);
  }

  /**
   * The order the source's sort test expects: numeric ids by leading integer,
   * the non-numeric one last; each id of the expected output is below the next.
   */
  lemma ExamplePairs()
    ensures Less("1_abc", "2_cde") && Less("2_cde", "3_efg") && Less("3_efg", "4_abc")
    ensures Less("4_abc", "10_abc") && Less("10_abc", "35_cde") && Less("35_cde", "120_cde")
    ensures Less("120_cde", "efg")
  {
    ExamplePairsSmall();
    ExamplePairsLarge();
  }

  lemma ExamplePairsSmall()
    ensures Less("1_abc", "2_cde") && Less("2_cde", "3_efg") && Less("3_efg", "4_abc")
  {
    assert Decimal(1) == "1" && Decimal(2) == "2" && Decimal(3) == "3" && Decimal(4) == "4";
    LessRendered(1, 2, "_abc", "_cde");
    LessRendered(2, 3, "_cde", "_efg");
    LessRendered(3, 4, "_efg", "_abc");
    assert "1_abc" == "1" + "_abc" && "2_cde" == "2" + "_cde";
    assert "3_efg" == "3" + "_efg" && "4_abc" == "4" + "_abc";
  }

  lemma ExamplePairsLarge()
    ensures Less("4_abc", "10_abc") && Less("10_abc", "35_cde") && Less("35_cde", "120_cde")
    ensures Less("120_cde", "efg")
  {
    ExamplePairTens();
    ExamplePairHundreds();
    ExamplePairLast();
  }

  lemma ExamplePairTens()
    ensures Less("4_abc", "10_abc") && Less("10_abc", "35_cde")
  {
    assert Decimal(4) == "4" && Decimal(10) == "10" && Decimal(35) == "35";
    LessRendered(4, 10, "_abc", "_abc");
    LessRendered(10, 35, "_abc", "_cde");
    assert "4_abc" == "4" + "_abc" && "10_abc" == "10" + "_abc" && "35_cde" == "35" + "_cde";
  }

  lemma ExamplePairHundreds()
    ensures Less("35_cde", "120_cde")
  {
    assert Decimal(35) == "35" && Decimal(120) == "120";
    LessRendered(35, 120, "_cde", "_cde");
    assert "35_cde" == "35" + "_cde" && "120_cde" == "120" + "_cde";
  }

  lemma ExamplePairLast()
    ensures Less("120_cde", "efg")
  {
    var a, b := "120_cde", "efg";
    assert IsNumeric(a) by { assert a[0] == '1'; }
    assert !IsNumeric(b) by { assert b[0] == 'e'; }
  }

  // ---------------------------------------------------------------------
  // Name filter of the packr box source
  // ---------------------------------------------------------------------

  predicate HasPrefix(s: string, prefix: string) {
    |prefix| <= |s| && s[..|prefix|] == prefix
  }

  predicate HasSuffix(s: string, suffix: string) {
    |suffix| <= |s| && s[|s| - |suffix|..] == suffix
  }

  /** The prefix box items must carry, given the box directory after path cleaning. */
  function BoxPrefix(cleanDir: string): (p: string)
    ensures cleanDir == "." ==> p == ""
    ensures cleanDir != "." ==> |p| == |cleanDir| + 1 && p[..|cleanDir|] == cleanDir && p[|cleanDir|] == '/'
  {
    if cleanDir == "." then "" else cleanDir + "/"
  }

  /** Whether a box item is a migration file directly inside the directory. */
  predicate PackrKeeps(item: string, prefix: string) {
    HasPrefix(item, prefix) && '/' !in item[|prefix|..] && HasSuffix(item[|prefix|..], ".sql")
  }

  /** Items of a listing that are kept, each with its name inside the directory, in listing order. */
  function PackrSelected(items: seq<string>, prefix: string): seq<(string, string)> {
    if |items| == 0 then []
    else
      var last := items[|items| - 1];
      PackrSelected(items[..|items| - 1], prefix) +
        (if PackrKeeps(last, prefix) then [(last, last[|prefix|..])] else [])
  }

  /** What is kept: exactly the `.sql` items directly under the directory, named without the prefix. */
  lemma {:induction false} PackrSelectedMeans(items: seq<string>, prefix: string, item: string, name: string)
    ensures (item, name) in PackrSelected(items, prefix) <==>
      item in items && PackrKeeps(item, prefix) && item == prefix + name
  {
    if |items| > 0 {
      var init := items[..|items| - 1];
      PackrSelectedMeans(init, prefix, item, name);
      assert items == init + [items[|items| - 1]];
      if PackrKeeps(item, prefix) && item == prefix + name {
        assert item[|prefix|..] == name;
      }
      if PackrKeeps(item, prefix) && name == item[|prefix|..] {
        assert item == item[..|prefix|] + item[|prefix|..];
      }
    }
  }

  /**
   * The selection loop of the box source's `FindMigrations`, without the
   * reading and parsing it does for each kept item.
   */
  method PackrFindNames(items: seq<string>, cleanDir: string) returns (selected: seq<(string, string)>)
    ensures selected == PackrSelected(items, BoxPrefix(cleanDir))
  {
    var prefix := if cleanDir != "." then cleanDir + "/" else "";
    selected := [];
    for i := 0 to |items|
      invariant selected == PackrSelected(items[..i], prefix)
    {
      var item := items[i];
      assert items[..i + 1][..i] == items[..i];
      if !HasPrefix(item, prefix) {
        continue;
      }
      var name := item[|prefix|..];
      if '/' in name {
        continue;
      }
      if HasSuffix(name, ".sql") {
        selected := selected + [(item, name)];
      }
    }
    assert items[..|items|] == items;
  }
}
