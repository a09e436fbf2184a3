/**
 * The hybrid order on migration ids: ids with a leading run of ASCII digits
 * compare by the integer value of that run, such ids come before all others,
 * and everything else falls back to a plain string comparison.
 */
module Ordering {

  predicate IsDigit(c: char) {
    '0' <= c <= '9'
  }

  /** The value of one ASCII digit. */
  function DigitValue(c: char): (d: nat)
    requires IsDigit(c)
    ensures d < 10
  {
    (c as int) - ('0' as int)
  }

  /** The digit whose value is `d`. */
  function DigitChar(d: nat): (c: char)
    requires d < 10
    ensures IsDigit(c) && DigitValue(c) == d
  {
    (('0' as int) + d) as char
  }

  /**
   * Whether `id` matches the prefix pattern `^(\d+).*$` under RE2 rules:
   * `\d` is an ASCII digit, `.` does not match a newline and `$` only
   * matches at the end of the text, so the id must start with a digit
   * and hold no newline at all.
   */
  predicate IsNumeric(id: string) {
    |id| > 0 && IsDigit(id[0]) && '\n' !in id
  }

  predicate AllDigits(s: string) {
    forall i :: 0 <= i < |s| ==> IsDigit(s[i])
  }

  /** Base-10 value of a digit string, most significant digit first. */
  function DecimalValue(s: string): nat
    requires AllDigits(s)
  {
    if |s| == 0 then 0 else 10 * DecimalValue(s[..|s| - 1]) + DigitValue(s[|s| - 1])
  }

  /** The shortest decimal rendering of `n` (no leading zeros; "0" for zero). */
  function Decimal(n: nat): (s: string)
    ensures |s| > 0 && AllDigits(s)
  {
    if n < 10 then [DigitChar(n)] else Decimal(n / 10) + [DigitChar(n % 10)]
  }

  /** Parsing a rendered number gives the number back. */
  lemma {:induction false} DecimalRoundTrip(n: nat)
    ensures DecimalValue(Decimal(n)) == n
  {
    var s := Decimal(n);
    if n >= 10 {
      DecimalRoundTrip(n / 10);
      assert s[..|s| - 1] == Decimal(n / 10);
    }
  }

  /**
   * The leading integer of a numeric id. The source parses it into a 64-bit
   * integer and panics when it does not fit; this model parses without bound.
   */
  function VersionInt(id: string): (v: nat)
    requires IsNumeric(id)
  {
    LeadingValue(id, 0, 0)
  }

  /**
   * The value of the digit run of `s` starting at `i` (the pattern's capture
   * group when `i` is 0), read left to right onto `acc`.
   */
  function LeadingValue(s: string, i: nat, acc: nat): nat
    decreases |s| - i
  {
    if i < |s| && IsDigit(s[i]) then LeadingValue(s, i + 1, 10 * acc + DigitValue(s[i])) else acc
  }

  /** Reading digits `d` that something other than a digit follows gives their value. */
  lemma {:induction false} LeadingValueOfDigits(d: string, rest: string, i: nat)
    requires AllDigits(d) && i <= |d|
    requires |rest| == 0 || !IsDigit(rest[0])
    ensures LeadingValue(d + rest, i, DecimalValue(d[..i])) == DecimalValue(d)
    decreases |d| - i
  {
    var s := d + rest;
    if i < |d| {
      assert s[i] == d[i];
      assert d[..i + 1][..i] == d[..i];
      LeadingValueOfDigits(d, rest, i + 1);
    } else {
      assert d[..i] == d;
      if i < |s| {
        assert s[i] == rest[0];
      }
    }
  }

  /** The version of digits `d` followed by something other than a digit is the value of `d`. */
  lemma VersionIntOfDigits(d: string, rest: string)
    requires |d| > 0 && AllDigits(d) && '\n' !in d + rest
    requires |rest| == 0 || !IsDigit(rest[0])
    ensures IsNumeric(d + rest)
    ensures VersionInt(d + rest) == DecimalValue(d)
  {
    assert (d + rest)[0] == d[0];
    assert d[..0] == [];
    LeadingValueOfDigits(d, rest, 0);
  }

  /** `VersionInt` of "<n><rest>" is `n` whenever rest does not extend the digit run. */
  lemma VersionIntOfRendered(n: nat, rest: string)
    requires |rest| == 0 || !IsDigit(rest[0])
    requires '\n' !in rest
    ensures IsNumeric(Decimal(n) + rest)
    ensures VersionInt(Decimal(n) + rest) == n
  {
    var d := Decimal(n);
    var s := d + rest;
    assert s[0] == d[0];
    forall i | 0 <= i < |s| ensures s[i] != '\n' {
      if i < |d| { assert s[i] == d[i]; } else { assert s[i] == rest[i - |d|]; }
    }
    VersionIntOfDigits(d, rest);
    DecimalRoundTrip(n);
  }

  /**
   * Go's `<` on strings: lexicographic on the bytes of the UTF-8 encoding.
   * Comparing Unicode scalar values one by one gives the same order.
   */
  predicate StrLess(a: string, b: string) {
    if |a| == 0 then |b| > 0
    else if |b| == 0 then false
    else if a[0] != b[0] then a[0] < b[0]
    else StrLess(a[1..], b[1..])
  }

  /** Reference definition: `a` is a proper prefix of `b`, or the first difference favours `a`. */
  ghost predicate LexBefore(a: string, b: string) {
    (|a| < |b| && a == b[..|a|]) ||
    (exists k :: 0 <= k < |a| && k < |b| && a[..k] == b[..k] && a[k] < b[k])
  }

  /** Two strings that agree on a non-empty prefix agree on their first character. */
  lemma SamePrefixSameHead(a: string, b: string, k: int)
    ensures 0 < k <= |a| && k <= |b| && a[..k] == b[..k] ==> a[0] == b[0]
  {
    if 0 < k <= |a| && k <= |b| && a[..k] == b[..k] {
      assert a[0] == a[..k][0];
    }
  }

  lemma {:induction false} StrLessIsLexBefore(a: string, b: string)
    ensures StrLess(a, b) <==> LexBefore(a, b)
  {
    if |a| == 0 || |b| == 0 {
    } else if a[0] != b[0] {
      if a[0] < b[0] {
        assert a[..0] == b[..0];
      }
      if LexBefore(a, b) && !(|a| < |b| && a == b[..|a|]) {
        var k :| 0 <= k < |a| && k < |b| && a[..k] == b[..k] && a[k] < b[k];
        SamePrefixSameHead(a, b, k);
      }
    } else {
      StrLessIsLexBefore(a[1..], b[1..]);
      if LexBefore(a[1..], b[1..]) {
        if |a[1..]| < |b[1..]| && a[1..] == b[1..][..|a[1..]|] {
          assert a == [a[0]] + a[1..] && b[..|a|] == [b[0]] + b[1..][..|a[1..]|];
        } else {
          var k :| 0 <= k < |a[1..]| && k < |b[1..]| && a[1..][..k] == b[1..][..k] && a[1..][k] < b[1..][k];
          assert a[..k + 1] == [a[0]] + a[1..][..k];
          assert b[..k + 1] == [b[0]] + b[1..][..k];
        }
      }
      if LexBefore(a, b) {
        if |a| < |b| && a == b[..|a|] {
          assert a[1..] == b[1..][..|a[1..]|];
        } else {
          var k :| 0 <= k < |a| && k < |b| && a[..k] == b[..k] && a[k] < b[k];
          assert k > 0;
          assert a[1..][..k - 1] == a[..k][1..] == b[..k][1..] == b[1..][..k - 1];
          assert a[1..][k - 1] == a[k] && b[1..][k - 1] == b[k];
        }
      }
    }
  }

  lemma {:induction false} StrLessIrreflexive(a: string)
    ensures !StrLess(a, a)
  {
    if |a| > 0 { StrLessIrreflexive(a[1..]); }
  }

  lemma {:induction false} StrLessTransitive(a: string, b: string, c: string)
    requires StrLess(a, b) && StrLess(b, c)
    ensures StrLess(a, c)
  {
    if |a| > 0 && a[0] == b[0] && b[0] == c[0] {
      StrLessTransitive(a[1..], b[1..], c[1..]);
    }
  }

  lemma {:induction false} StrLessConnected(a: string, b: string)
    requires a != b
    ensures StrLess(a, b) || StrLess(b, a)
  {
    if |a| > 0 && |b| > 0 && a[0] == b[0] {
      assert a == [a[0]] + a[1..] && b == [b[0]] + b[1..];
      StrLessConnected(a[1..], b[1..]);
    }
  }

  /**
   * The id order. Only ids are compared: `Migration.Less` in the source
   * reads nothing but the two ids.
   */
  predicate Less(a: string, b: string) {
    if IsNumeric(a) && IsNumeric(b) && VersionInt(a) != VersionInt(b) then VersionInt(a) < VersionInt(b)
    else if IsNumeric(a) && !IsNumeric(b) then true
    else if !IsNumeric(a) && IsNumeric(b) then false
    else StrLess(a, b)
  }

  /**
   * How `Less` decides, stated case by case: numeric ids with different
   * leading integers compare by integer, numeric ids come before the rest,
   * and otherwise the string order decides.
   */
  lemma LessCases(a: string, b: string)
    ensures IsNumeric(a) && IsNumeric(b) && VersionInt(a) < VersionInt(b) ==> Less(a, b)
    ensures IsNumeric(a) && !IsNumeric(b) ==> Less(a, b) && !Less(b, a)
    ensures (IsNumeric(a) == IsNumeric(b) && (!IsNumeric(a) || VersionInt(a) == VersionInt(b)))
      ==> (Less(a, b) <==> StrLess(a, b))
  {
  }

  lemma LessIrreflexive(a: string)
    ensures !Less(a, a)
  {
    StrLessIrreflexive(a);
  }

  lemma LessAsymmetric(a: string, b: string)
    requires Less(a, b)
    ensures !Less(b, a)
  {
    if StrLess(a, b) && StrLess(b, a) {
      StrLessTransitive(a, b, a);
      StrLessIrreflexive(a);
    }
  }

  lemma LessTransitive(a: string, b: string, c: string)
    requires Less(a, b) && Less(b, c)
    ensures Less(a, c)
  {
    if StrLess(a, b) && StrLess(b, c) {
      StrLessTransitive(a, b, c);
    }
  }

  lemma LessConnected(a: string, b: string)
    requires a != b
    ensures Less(a, b) || Less(b, a)
  {
    StrLessConnected(a, b);
  }

  /** The comparisons of the source's `TestLess` between short ids. */
  lemma LessExamplesShort()
    ensures Less("1", "2") && !Less("2", "1")
    ensures Less("1", "a") && !Less("a", "1")
    ensures !Less("a", "a")
    ensures Less("1", "10") && !Less("10", "1")
  {
    VersionIntOfRendered(1, "");
    VersionIntOfRendered(2, "");
    VersionIntOfRendered(10, "");
    assert Decimal(1) == "1" && Decimal(2) == "2" && Decimal(10) == "10";
    LessIrreflexive("a");
  }

  /** Equal leading integers fall back to the string order. */
  lemma LessExamplesSameVersion()
    ensures Less("1-a", "1-b") && !Less("1-b", "1-a")
  {
    VersionIntOfRendered(1, "-a");
    VersionIntOfRendered(1, "-b");
    assert Decimal(1) == "1";
    assert "1-a" == "1" + "-a" && "1-b" == "1" + "-b";
    assert StrLess("1-a", "1-b") by {
      assert "1-a"[1..] == "-a" && "1-b"[1..] == "-b";
      assert "-a"[1..] == "a" && "-b"[1..] == "b";
    }
    LessAsymmetric("1-a", "1-b");
  }

  /** Ids whose leading integers differ compare by integer, whatever follows. */
  lemma LessExamplesSuffix()
    ensures Less("1_foo", "10_bar") && !Less("10_bar", "1_foo")
  {
    VersionIntOfRendered(1, "_foo");
    VersionIntOfRendered(10, "_bar");
    assert Decimal(1) == "1" && Decimal(10) == "10";
    assert "1_foo" == "1" + "_foo" && "10_bar" == "10" + "_bar";
  }

  /** A common prefix does not change the string order. */
  lemma {:induction false} StrLessCommonPrefix(d: string, x: string, y: string)
    ensures StrLess(d + x, d + y) <==> StrLess(x, y)
  {
    if |d| > 0 {
      assert (d + x)[1..] == d[1..] + x && (d + y)[1..] == d[1..] + y;
      StrLessCommonPrefix(d[1..], x, y);
    } else {
      assert d + x == x && d + y == y;
    }
  }

  /** Ids with the same leading digits compare by what follows them. */
  lemma LessSameLeadingDigits(d: string, x: string, y: string)
    requires |d| > 0 && AllDigits(d) && '\n' !in d
    requires |x| == 0 || !IsDigit(x[0])
    requires |y| == 0 || !IsDigit(y[0])
    requires '\n' !in x && '\n' !in y
    ensures Less(d + x, d + y) <==> StrLess(x, y)
  {
    assert '\n' !in d + x && '\n' !in d + y;
    VersionIntOfDigits(d, x);
    VersionIntOfDigits(d, y);
    StrLessCommonPrefix(d, x, y);
  }

  /** Timestamp-style ids with the same date compare by the rest of the string. */
  lemma LessExamplesTimestamp()
    ensures Less("20160126_1100", "20160126_1200") && !Less("20160126_1200", "20160126_1100")
  {
    var d, x, y := "20160126", "_1100", "_1200";
    assert AllDigits(d);
    assert StrLess(x, y) && !StrLess(y, x);
    LessSameLeadingDigits(d, x, y);
    LessSameLeadingDigits(d, y, x);
    assert d + x == "20160126_1100" && d + y == "20160126_1200";
  }
}
