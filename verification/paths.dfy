/**
 * Blob naming in dags/CosentialDAG.py: the date partition `year=YYYY/month=MM/day=DD`,
 * the blob a table is loaded from, and the POSIX `os.path.join` both are built with.
 */
module Paths {
  import opened Wrappers

  /** `os.path.join(a, b)` on POSIX: an absolute `b` replaces `a`; a separator is added only when `a` is non-empty and does not end in one. */
  function Join(a: string, b: string): string
  {
    if |b| > 0 && b[0] == '/' then b
    else if a == "" || a[|a| - 1] == '/' then a + b
    else a + "/" + b
  }

  /** A join always ends with its second part; it is exactly that part when absolute, and otherwise starts with the first. */
  lemma JoinShape(a: string, b: string)
    ensures |b| > 0 && b[0] == '/' ==> Join(a, b) == b
    ensures !(|b| > 0 && b[0] == '/') ==> |Join(a, b)| >= |a| && Join(a, b)[..|a|] == a
    ensures |Join(a, b)| >= |b| && Join(a, b)[|Join(a, b)| - |b|..] == b
  {
  }

  /** A path component that is not absolute and does not end in a separator. */
  predicate Plain(s: string)
  {
    s != "" && s[0] != '/' && s[|s| - 1] != '/'
  }

  /** Joining through a plain middle component does not depend on grouping. */
  lemma JoinAssociates(a: string, b: string, c: string)
    requires Plain(b)
    ensures Join(Join(a, b), c) == Join(a, Join(b, c))
  {
    if !(|c| > 0 && c[0] == '/') {
      EndsLike(a, b);
      if a == "" || a[|a| - 1] == '/' {
        AssociatesAfterSeparator(a, b, c);
      } else {
        AssociatesAddingSeparator(a, b, c);
      }
    }
  }

  /** The grouping case where `a` needs no separator before `b`. */
  lemma AssociatesAfterSeparator(a: string, b: string, c: string)
    requires Plain(b) && !(|c| > 0 && c[0] == '/')
    requires a == "" || a[|a| - 1] == '/'
    requires Join(a, b)[|Join(a, b)| - 1] == b[|b| - 1]
    ensures Join(Join(a, b), c) == Join(a, Join(b, c))
  {
    var bc := b + "/" + c;
    assert bc[0] == b[0];
    assert (a + b) + "/" + c == a + bc;
  }

  /** The grouping case where a separator goes between `a` and `b`. */
  lemma AssociatesAddingSeparator(a: string, b: string, c: string)
    requires Plain(b) && !(|c| > 0 && c[0] == '/')
    requires !(a == "" || a[|a| - 1] == '/')
    requires Join(a, b)[|Join(a, b)| - 1] == b[|b| - 1]
    ensures Join(Join(a, b), c) == Join(a, Join(b, c))
  {
    var bc := b + "/" + c;
    assert bc[0] == b[0];
    assert (a + "/" + b) + "/" + c == a + "/" + bc;
  }

  /** Joining a plain component ends the path with that component's last character. */
  lemma EndsLike(a: string, b: string)
    requires Plain(b)
    ensures |Join(a, b)| >= |b| && Join(a, b)[|Join(a, b)| - 1] == b[|b| - 1]
  {
    var ab := Join(a, b);
    assert ab[|ab| - |b|..] == b;
  }

  /** A calendar date as `datetime.now()` gives it. */
  datatype Date = Date(year: nat, month: nat, day: nat)

  predicate ValidDate(d: Date)
  {
    1000 <= d.year <= 9999 && 1 <= d.month <= 12 && 1 <= d.day <= 31
  }

  function Pow10(width: nat): (p: nat)
    ensures p > 0
  {
    if width == 0 then 1 else 10 * Pow10(width - 1)
  }

  predicate IsDigit(c: char)
  {
    '0' <= c <= '9'
  }

  predicate AllDigits(s: string)
  {
    forall i :: 0 <= i < |s| ==> IsDigit(s[i])
  }

  /** `n` in decimal, zero-padded to exactly `width` digits (`%Y` pads to four, `%m` and `%d` to two). */
  function Padded(n: nat, width: nat): (s: string)
    requires n < Pow10(width)
    ensures |s| == width && AllDigits(s)
  {
    if width == 0 then ""
    else Padded(n / 10, width - 1) + [(('0' as int) + n % 10) as char]
  }

  /** The number a string of decimal digits denotes. */
  function DigitsValue(s: string): nat
    requires AllDigits(s)
  {
    if s == "" then 0
    else DigitsValue(s[..|s| - 1]) * 10 + ((s[|s| - 1] as int) - ('0' as int))
  }

  /** Reading a padded rendering back gives the number. */
  lemma {:induction false} PaddedRoundTrip(n: nat, width: nat)
    requires n < Pow10(width)
    ensures DigitsValue(Padded(n, width)) == n
  {
    if width > 0 {
      PaddedRoundTrip(n / 10, width - 1);
      var s := Padded(n, width);
      assert s[..|s| - 1] == Padded(n / 10, width - 1);
    }
  }

  function YearPart(d: Date): string requires ValidDate(d) { "year=" + Padded(d.year, 4) }
  function MonthPart(d: Date): string requires ValidDate(d) { "month=" + Padded(d.month, 2) }
  function DayPart(d: Date): string requires ValidDate(d) { "day=" + Padded(d.day, 2) }

  /** The run's date partition `os.path.join(f"year={year}", f"month={month}", f"day={day}")`. */
  function PartitionPath(d: Date): (p: string)
    requires ValidDate(d)
    ensures p == "year=" + Padded(d.year, 4) + "/month=" + Padded(d.month, 2) + "/day=" + Padded(d.day, 2)
    ensures |p| == 25 && Plain(p)
  {
    Join(Join(YearPart(d), MonthPart(d)), DayPart(d))
  }

  /** Recover the date from a partition path; None for anything that is not one. */
  function ParsePartition(p: string): Option<Date>
  {
    if |p| == 25 && p[..5] == "year=" && p[9..16] == "/month=" && p[18..23] == "/day="
       && AllDigits(p[5..9]) && AllDigits(p[16..18]) && AllDigits(p[23..25])
    then Some(Date(DigitsValue(p[5..9]), DigitsValue(p[16..18]), DigitsValue(p[23..25])))
    else None
  }

  /** Where the three numbers sit in a partition path. */
  lemma PartitionSlices(y: string, m: string, dd: string)
    requires |y| == 4 && |m| == 2 && |dd| == 2
    ensures var p := "year=" + y + "/month=" + m + "/day=" + dd;
            && |p| == 25 && p[..5] == "year=" && p[9..16] == "/month=" && p[18..23] == "/day="
            && p[5..9] == y && p[16..18] == m && p[23..25] == dd
  {
    var p := "year=" + y + "/month=" + m + "/day=" + dd;
    assert p[..5] == "year=" by { SliceAt(p, 0, "year="); }
    assert p[5..9] == y by { SliceAt(p, 5, y); }
    assert p[9..16] == "/month=" by { SliceAt(p, 9, "/month="); }
    assert p[16..18] == m by { SliceAt(p, 16, m); }
    assert p[18..23] == "/day=" by { SliceAt(p, 18, "/day="); }
    assert p[23..25] == dd by { SliceAt(p, 23, dd); }
  }

  /** A slice equals a string when they agree character by character. */
  lemma SliceAt(p: string, from: nat, s: string)
    requires from + |s| <= |p|
    requires forall i :: 0 <= i < |s| ==> p[from + i] == s[i]
    ensures p[from..from + |s|] == s
  {
  }

  /** The partition path determines the date: parsing it back yields the date, so distinct run dates never share a partition. */
  lemma PartitionRoundTrip(d: Date)
    requires ValidDate(d)
    ensures ParsePartition(PartitionPath(d)) == Some(d)
  {
    var y, m, dd := Padded(d.year, 4), Padded(d.month, 2), Padded(d.day, 2);
    PartitionSlices(y, m, dd);
    PaddedRoundTrip(d.year, 4);
    PaddedRoundTrip(d.month, 2);
    PaddedRoundTrip(d.day, 2);
  }

  /** The temporary run file both tasks use: `f"run={hour}.json"` with `hour = 'temp'`. */
  const RunFile: string := "run=temp.json"

  /** The last component of a table's blob: the run file for `'default'`, the configured name otherwise. */
  function Leaf(fileName: string): (leaf: string)
    ensures leaf != "default"
    ensures leaf == fileName <==> fileName != "default"
  {
    if fileName == "default" then RunFile else fileName
  }

  /** The blob `process_entity_tables` reads: `os.path.join(entity_name, year, month, day, leaf)`. */
  function BlobName(entity: string, d: Date, fileName: string): string
    requires ValidDate(d)
  {
    Join(Join(Join(Join(entity, YearPart(d)), MonthPart(d)), DayPart(d)), Leaf(fileName))
  }

  /** Whatever the entity name, a table's blob ends with its leaf: the configured file name, or the run file for `'default'`. */
  lemma BlobNameEndsWithLeaf(entity: string, d: Date, fileName: string)
    requires ValidDate(d)
    ensures var blob := BlobName(entity, d, fileName);
            |blob| >= |Leaf(fileName)| && blob[|blob| - |Leaf(fileName)|..] == Leaf(fileName)
  {
    JoinShape(Join(Join(Join(entity, YearPart(d)), MonthPart(d)), DayPart(d)), Leaf(fileName));
  }

  /**
   * The blob a table is loaded from is the one `write_data_azure_storage`
   * writes for the same entity, partition and file name
   * (`os.path.join(entity, os.path.join(blob_path, name))`).
   */
  lemma BlobNameIsWritePath(entity: string, d: Date, fileName: string)
    requires ValidDate(d)
    ensures BlobName(entity, d, fileName) == Join(entity, Join(PartitionPath(d), Leaf(fileName)))
  {
    var y, m, dd := YearPart(d), MonthPart(d), DayPart(d);
    assert Plain(y) && Plain(m) && Plain(dd);
    JoinAssociates(entity, y, m);
    assert Plain(Join(y, m));
    JoinAssociates(entity, Join(y, m), dd);
    JoinAssociates(entity, PartitionPath(d), Leaf(fileName));
  }

  /**
   * The layout of a table's blob for an ordinary entity name:
   * `entity/year=YYYY/month=MM/day=DD/run=temp.json` for `'default'`,
   * `entity/year=YYYY/month=MM/day=DD/<file_name>` otherwise; an absolute
   * file name replaces the whole path, as `os.path.join` does.
   */
  lemma BlobNameLayout(entity: string, d: Date, fileName: string)
    requires ValidDate(d)
    requires Plain(entity)
    ensures fileName == "default" ==> BlobName(entity, d, fileName) == entity + "/" + PartitionPath(d) + "/" + RunFile
    ensures fileName != "default" && !(|fileName| > 0 && fileName[0] == '/') ==>
              BlobName(entity, d, fileName) == entity + "/" + PartitionPath(d) + "/" + fileName
    ensures |fileName| > 0 && fileName[0] == '/' ==> BlobName(entity, d, fileName) == fileName
  {
    BlobNameIsWritePath(entity, d, fileName);
    JoinUnderPlain(entity, PartitionPath(d), Leaf(fileName));
  }

  /** Joining a leaf under two plain components. */
  lemma JoinUnderPlain(a: string, b: string, leaf: string)
    requires Plain(a) && Plain(b)
    ensures |leaf| > 0 && leaf[0] == '/' ==> Join(a, Join(b, leaf)) == leaf
    ensures !(|leaf| > 0 && leaf[0] == '/') ==> Join(a, Join(b, leaf)) == a + "/" + b + "/" + leaf
  {
    if !(|leaf| > 0 && leaf[0] == '/') {
      assert (b + "/" + leaf)[0] == b[0];
    }
  }
}
