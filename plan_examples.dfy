/**
 * The plans for a database with holes: candidates 1 to 5, of which 1 and 3
 * are applied. Going up fills the hole at 2 and then runs 4 and 5; going
 * down first fills the hole and then undoes 3, and a limit never cuts the
 * catch-up part.
 */
module PlanExamples {
  import opened Wrappers
  import opened Ordering
  import opened Migrations
  import opened Planner

  ghost predicate FiveLoaded(ms: seq<Migration>) {
    |ms| == 5 && ms[0].id == "1" && ms[1].id == "2" && ms[2].id == "3" && ms[3].id == "4" && ms[4].id == "5" &&
    forall k :: 0 <= k < 5 ==> IsLoaded(ms[k])
  }

  /** The applied records of the example database, 1 and 3. */
  ghost predicate OneAndThree(records: seq<string>) {
    records == ["1", "3"]
  }

  /** The order facts among the single-digit ids the examples use. */
  lemma DigitOrder()
    ensures Less("1", "3") && Less("2", "3") && Less("3", "4") && Less("3", "5")
    ensures !Less("3", "1") && !Less("4", "3") && !Less("5", "3")
  {
    assert Decimal(1) == "1" && Decimal(2) == "2" && Decimal(3) == "3" && Decimal(4) == "4" && Decimal(5) == "5";
    LessRendered(1, 3, "", "");
    LessRendered(2, 3, "", "");
    LessRendered(3, 4, "", "");
    LessRendered(3, 5, "", "");
    LessAsymmetric("1", "3");
    LessAsymmetric("3", "4");
    LessAsymmetric("3", "5");
  }

  /** The applied records 3 and 1, in either row order, sort to 1 then 3; the last applied is 3. */
  lemma HolesExisting(records: seq<string>)
    requires OneAndThree(records)
    ensures SortById(BareMigrations(records)) ==
      [Migration("1", [], [], false, false, None), Migration("3", [], [], false, false, None)]
  {
    DigitOrder();
    var b1 := Migration("1", [], [], false, false, None);
    var b3 := Migration("3", [], [], false, false, None);
    assert BareMigrations(records) == [b1, b3];
    assert SortById([b3]) == [b3];
    assert SortById([b1, b3]) == InsertById(b1, [b3]);
  }

  /** Only 2 is unapplied and below the last applied, 3. */
  lemma HolesMissing(ms: seq<Migration>, existing: seq<Migration>)
    requires FiveLoaded(ms) && Ids(existing) == ["1", "3"]
    ensures Missing(ms, existing, "3") == [ms[1]]
  {
    DigitOrder();
    assert "1" in Ids(existing) && "3" in Ids(existing);
    assert "2" !in Ids(existing) && "4" !in Ids(existing) && "5" !in Ids(existing);
    var tail := ms[4..];
    assert tail == [ms[4]];
    assert Missing(tail, existing, "3") == [] + Missing(tail[1..], existing, "3");
    assert Missing(ms[3..], existing, "3") == [] + Missing(tail, existing, "3");
    assert Missing(ms[2..], existing, "3") == [] + Missing(ms[3..], existing, "3");
    assert Missing(ms[1..], existing, "3") == [ms[1]] + Missing(ms[2..], existing, "3");
    assert Missing(ms, existing, "3") == [] + Missing(ms[1..], existing, "3");
  }

  /** 3 sits at index 2: up runs 4 and 5, down undoes 3, 2 and 1. */
  lemma HolesApplicable(ms: seq<Migration>)
    requires FiveLoaded(ms)
    ensures Applicable(ms, "3", Up) == [ms[3], ms[4]]
    ensures Applicable(ms, "3", Down) == [ms[2], ms[1], ms[0]]
  {
    assert FirstMatch(ms[2..], "3") == 0;
    assert FirstMatch(ms[1..], "3") == 1;
    assert FirstMatch(ms, "3") == 2;
    assert ms[..3] == [ms[0], ms[1], ms[2]];
    ReversedByIndex([ms[2], ms[1], ms[0]], ms[..3]);
  }

  /** The pieces a limited plan for the holes database is made of. */
  lemma HolesPlan(ms: seq<Migration>, records: seq<string>, dir: Direction, max: int, loader: Loader)
    requires FiveLoaded(ms) && OneAndThree(records)
    ensures var toApply := Applicable(ms, "3", dir);
      PlanOf(ms, records, dir, max, -1, false, loader) ==
        Ok([Planned(ms[1], Up)] + PlannedAll(toApply[..MaxCount(max, |toApply|)], dir))
  {
    HolesExisting(records);
    var existing := SortById(BareMigrations(records));
    assert Ids(existing) == ["1", "3"];
    assert LastRun(existing) == "3";
    HolesMissing(ms, existing);
    assert Ids(ms) == ["1", "2", "3", "4", "5"];
    assert forall x :: x in records ==> x in Ids(ms);
    PlanWithLimit(ms, records, dir, max, false, loader);
    PlannedOne(ms[1], Up);
  }

  /** Up with no limit: the hole at 2 first, then 4 and 5. */
  lemma HolesUp(ms: seq<Migration>, records: seq<string>, loader: Loader)
    requires FiveLoaded(ms) && OneAndThree(records)
    ensures PlanOf(ms, records, Up, 0, -1, false, loader) ==
      Ok([Planned(ms[1], Up), Planned(ms[3], Up), Planned(ms[4], Up)])
  {
    var p1, p3, p4 := Planned(ms[1], Up), Planned(ms[3], Up), Planned(ms[4], Up);
    HolesUpSelected(ms, records, loader);
    assert [p1] + [p3, p4] == [p1, p3, p4];
  }

  lemma HolesUpSelected(ms: seq<Migration>, records: seq<string>, loader: Loader)
    requires FiveLoaded(ms) && OneAndThree(records)
    ensures PlanOf(ms, records, Up, 0, -1, false, loader) ==
      Ok([Planned(ms[1], Up)] + [Planned(ms[3], Up), Planned(ms[4], Up)])
  {
    HolesPlan(ms, records, Up, 0, loader);
    HolesApplicable(ms);
    var toApply := Applicable(ms, "3", Up);
    assert toApply[..MaxCount(0, |toApply|)] == [ms[3], ms[4]];
    PlannedPair(ms[3], ms[4], Up);
  }

  lemma PlannedPair(a: Migration, b: Migration, dir: Direction)
    ensures PlannedAll([a, b], dir) == [Planned(a, dir), Planned(b, dir)]
  {
    assert PlannedAll([a, b], dir)[1] == Planned(b, dir);
  }

  /** Down with limit 1: the hole at 2 is filled, then 3 is undone; the limit only cuts the down part. */
  lemma HolesDownOne(ms: seq<Migration>, records: seq<string>, loader: Loader)
    requires FiveLoaded(ms) && OneAndThree(records)
    ensures PlanOf(ms, records, Down, 1, -1, false, loader) == Ok([Planned(ms[1], Up), Planned(ms[2], Down)])
  {
    var p1, p3 := Planned(ms[1], Up), Planned(ms[2], Down);
    HolesDownOneSelected(ms, records, loader);
    assert [p1] + [p3] == [p1, p3];
  }

  lemma HolesDownOneSelected(ms: seq<Migration>, records: seq<string>, loader: Loader)
    requires FiveLoaded(ms) && OneAndThree(records)
    ensures PlanOf(ms, records, Down, 1, -1, false, loader) == Ok([Planned(ms[1], Up)] + [Planned(ms[2], Down)])
  {
    HolesPlan(ms, records, Down, 1, loader);
    HolesApplicable(ms);
    var toApply := Applicable(ms, "3", Down);
    assert toApply[..MaxCount(1, |toApply|)] == [ms[2]];
    PlannedOne(ms[2], Down);
  }

  /** Down with limit 2: the hole at 2 is filled, then 3 and 2 are undone. */
  lemma HolesDownTwo(ms: seq<Migration>, records: seq<string>, loader: Loader)
    requires FiveLoaded(ms) && OneAndThree(records)
    ensures PlanOf(ms, records, Down, 2, -1, false, loader) ==
      Ok([Planned(ms[1], Up), Planned(ms[2], Down), Planned(ms[1], Down)])
  {
    var p1, p3, p2 := Planned(ms[1], Up), Planned(ms[2], Down), Planned(ms[1], Down);
    HolesDownTwoSelected(ms, records, loader);
    assert [p1] + [p3, p2] == [p1, p3, p2];
  }

  lemma HolesDownTwoSelected(ms: seq<Migration>, records: seq<string>, loader: Loader)
    requires FiveLoaded(ms) && OneAndThree(records)
    ensures PlanOf(ms, records, Down, 2, -1, false, loader) ==
      Ok([Planned(ms[1], Up)] + [Planned(ms[2], Down), Planned(ms[1], Down)])
  {
    HolesPlan(ms, records, Down, 2, loader);
    HolesApplicable(ms);
    var toApply := Applicable(ms, "3", Down);
    assert toApply[..MaxCount(2, |toApply|)] == [ms[2], ms[1]];
    PlannedPair(ms[2], ms[1], Down);
  }

  lemma PlannedOne(a: Migration, dir: Direction)
    ensures PlannedAll([a], dir) == [Planned(a, dir)]
  {
    assert PlannedAll([a], dir)[0] == Planned(a, dir);
  }
}
