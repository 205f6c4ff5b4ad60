/**
 The append-only audit log: one file per month, one JSON line per entry. A directory is a map
 from file names to contents; the JSON codec of an entry is a pair of functions.
 */
module AuditLog {
  import opened Wrappers
  import opened Text
  import opened Lists
  import opened PathOrder

  datatype AuditEntry = AuditEntry(
    timestamp: string,
    operator: string,
    changedFile: string,
    action: string,
    oldValue: string,
    newValue: string,
    securityLowering: bool)

  datatype Codec = Codec(encode: AuditEntry -> string, decode: string -> Option<AuditEntry>)

  /** An encoded entry has no blank ends and no raw line break (section 7 of RFC 8259), and decodes to itself. */
  ghost predicate GoodCodec(c: Codec) {
    forall e :: c.encode(e) != "" && Trimmed(c.encode(e)) && '\n' !in c.encode(e) && c.decode(c.encode(e)) == Some(e)
  }

  type Directory = map<string, string>

  // ---- File names ----

  function DigitOf(n: nat): char
    requires n < 10
  {
    ('0' as int + n) as char
  }

  /** The last `width` decimal digits of `n`, with leading zeros. */
  function Digits(n: nat, width: nat): (s: string)
    ensures |s| == width
  {
    if width == 0 then "" else Digits(n / 10, width - 1) + [DigitOf(n % 10)]
  }

  function Width(n: nat): nat {
    if n < 10 then 1 else 1 + Width(n / 10)
  }

  /** `{:0width}`: at least `width` digits. */
  function Padded(n: nat, width: nat): string {
    Digits(n, if Width(n) < width then width else Width(n))
  }

  datatype Month = Month(year: nat, month: nat)
  {
    predicate Before(other: Month) {
      year < other.year || (year == other.year && month < other.month)
    }

    predicate InCalendar() {
      1 <= month <= 12
    }
  }

  /** The digits the year takes in a file name. */
  function YearWidth(m: Month): nat {
    if Width(m.year) < 4 then 4 else Width(m.year)
  }

  /** `n` without its last `k` digits. */
  function Leading(n: nat, k: nat): nat {
    if k == 0 then n else Leading(n / 10, k - 1)
  }

  /** The year of the earlier month does not exceed the equally many leading digits of the later one's. */
  predicate Sorts(m: Month, m': Month) {
    YearWidth(m) <= YearWidth(m') && m.year <= Leading(m'.year, YearWidth(m') - YearWidth(m))
  }

  function FileName(m: Month): string {
    "audit-" + Padded(m.year, 4) + "-" + Padded(m.month, 2) + ".jsonl"
  }

  predicate IsLogFile(name: string) {
    |name| > 6 && name[|name| - 6..] == ".jsonl"
  }

  // ---- Reading and writing ----

  function AppendTo(c: Codec, dir: Directory, name: string, entry: AuditEntry): Directory {
    dir[name := (if name in dir then dir[name] else "") + c.encode(entry) + "\n"]
  }

  /** The entries of the lines that decode; blank and malformed lines are skipped. */
  function EntriesOf(c: Codec, lines: seq<string>): seq<AuditEntry> {
    if lines == [] then []
    else
      var trimmed := Trim(lines[0]);
      (if trimmed == "" then [] else match c.decode(trimmed) case Some(e) => [e] case None => [])
      + EntriesOf(c, lines[1..])
  }

  function EntriesIn(c: Codec, content: string): seq<AuditEntry> {
    EntriesOf(c, Lines(content))
  }

  lemma {:induction false} EntriesOfConcat(c: Codec, a: seq<string>, b: seq<string>)
    ensures EntriesOf(c, a + b) == EntriesOf(c, a) + EntriesOf(c, b)
  {
    if a == [] {
      assert a + b == b;
    } else {
      assert (a + b)[1..] == a[1..] + b;
      EntriesOfConcat(c, a[1..], b);
    }
  }

  function EntriesOfFiles(c: Codec, dir: Directory, files: seq<string>): seq<AuditEntry>
    requires forall i | 0 <= i < |files| :: files[i] in dir
  {
    if files == [] then []
    else EntriesOfFiles(c, dir, files[..|files| - 1]) + EntriesIn(c, dir[files[|files| - 1]])
  }

  /** The log files of the directory, each once, in path order. */
  ghost predicate Listing(dir: Directory, files: seq<string>) {
    && (forall i | 0 <= i < |files| :: files[i] in dir && IsLogFile(files[i]))
    && (forall name | name in dir && IsLogFile(name) :: name in files)
    && Ascending(files)
  }

  class Log {
    const codec: Codec
    var dir: Directory

    constructor (codec: Codec)
      ensures this.codec == codec && dir == map[]
    {
      this.codec := codec;
      dir := map[];
    }

    /** Appends to the file of the month it is now. */
    method Append(entry: AuditEntry, now: Month)
      modifies this`dir
      ensures dir == AppendTo(codec, old(dir), FileName(now), entry)
    {
      var path := FileName(now);
      if path !in dir {
        dir := dir[path := ""];
      }
      var line := codec.encode(entry);
      line := line + "\n";
      assert dir[path] + codec.encode(entry) + "\n" == dir[path] + line;
      dir := dir[path := dir[path] + line];
    }

    method ReadFile(path: string) returns (entries: seq<AuditEntry>)
      ensures entries == if path in dir then EntriesIn(codec, dir[path]) else []
    {
      if path !in dir {
        return [];
      }
      var lines := Lines(dir[path]);
      entries := [];
      for k := 0 to |lines|
        invariant entries == EntriesOf(codec, lines[..k])
      {
        assert lines[..k + 1] == lines[..k] + [lines[k]];
        EntriesOfConcat(codec, lines[..k], [lines[k]]);
        assert [lines[k]][1..] == [] && EntriesOf(codec, []) == [];
        var trimmed := Trim(lines[k]);
        if trimmed == "" {
          continue;
        }
        match codec.decode(trimmed) {
          case Some(entry) => entries := entries + [entry];
          case None =>
        }
      }
      assert lines[..|lines|] == lines;
    }

    /** The log files of the directory, in the arbitrary order in which it is walked. */
    method LogFiles() returns (names: seq<string>)
      ensures forall name :: name in names <==> name in dir && IsLogFile(name)
      ensures forall i, j | 0 <= i < j < |names| :: names[i] != names[j]
    {
      names := [];
      var rest := dir.Keys;
      while rest != {}
        invariant rest <= dir.Keys
        invariant forall name :: name in names <==> name in dir && name !in rest && IsLogFile(name)
        invariant forall i, j | 0 <= i < j < |names| :: names[i] != names[j]
        decreases |rest|
      {
        var name :| name in rest;
        rest := rest - {name};
        if IsLogFile(name) {
          names := names + [name];
        }
      }
    }

    /** Reads every log file in path order. */
    method ReadAll() returns (entries: seq<AuditEntry>)
      ensures exists files :: Listing(dir, files) && entries == EntriesOfFiles(codec, dir, files)
      ensures forall files | Listing(dir, files) :: entries == EntriesOfFiles(codec, dir, files)
    {
      var names := LogFiles();
      var files := Sort(names);
      assert Listing(dir, files);
      entries := [];
      for k := 0 to |files|
        invariant entries == EntriesOfFiles(codec, dir, files[..k])
      {
        assert files[..k + 1][..k] == files[..k];
        var more := ReadFile(files[k]);
        entries := entries + more;
      }
      assert files[..|files|] == files;
      forall other | Listing(dir, other)
        ensures other == files
      {
        ListingIsUnique(dir, files, other);
      }
    }
  }

  lemma ListingIsUnique(dir: Directory, files: seq<string>, other: seq<string>)
    requires Listing(dir, files) && Listing(dir, other)
    ensures files == other
  {
    SortingIsUnique(files, other);
  }

  // ---- File names and months ----

  function Pow10(k: nat): nat {
    if k == 0 then 1 else 10 * Pow10(k - 1)
  }

  lemma {:induction false} DigitsOrder(n: nat, n': nat, width: nat)
    requires n < n' < Pow10(width)
    ensures Less(Digits(n, width), Digits(n', width))
  {
    var a, b := Digits(n / 10, width - 1), Digits(n' / 10, width - 1);
    var x, y := [DigitOf(n % 10)], [DigitOf(n' % 10)];
    if n / 10 < n' / 10 {
      DigitsOrder(n / 10, n' / 10, width - 1);
      LessWithSuffix(a, b, x, y);
    } else {
      LessAfterPrefix(a, x, y);
    }
  }

  lemma {:induction false} WidthBounds(n: nat, width: nat)
    requires Width(n) <= width
    ensures n < Pow10(width)
  {
    if n < 10 {
      assert Pow10(width) == 10 * Pow10(width - 1);
      PositivePower(width - 1);
    } else {
      WidthBounds(n / 10, width - 1);
    }
  }

  lemma {:induction false} PositivePower(k: nat)
    ensures Pow10(k) >= 1
  {
    if k > 0 {
      PositivePower(k - 1);
    }
  }

  lemma {:induction false} WidthGrows(n: nat, n': nat)
    requires n <= n'
    ensures Width(n) <= Width(n')
  {
    if n >= 10 {
      WidthGrows(n / 10, n' / 10);
    }
  }

  lemma MonthPadding(m: Month)
    requires m.InCalendar()
    ensures Padded(m.month, 2) == Digits(m.month, 2) && m.month < Pow10(2)
  {
    assert Pow10(2) == 10 * Pow10(1) && Pow10(1) == 10 * Pow10(0);
    assert Width(m.month) <= if m.month < 10 then 1 else 2;
  }

  /** A number begins with the digits of its leading part. */
  lemma {:induction false} DigitsBegin(n: nat, width: nat, k: nat) returns (tail: string)
    requires n < Pow10(width + k)
    ensures Digits(n, width + k) == Digits(Leading(n, k), width) + tail
    ensures |tail| == k && forall i | 0 <= i < k :: '0' <= tail[i] <= '9'
    ensures Leading(n, k) < Pow10(width)
  {
    if k == 0 {
      tail := "";
      assert Digits(n, width) + tail == Digits(n, width);
    } else {
      var front := DigitsBegin(n / 10, width, k - 1);
      tail := front + [DigitOf(n % 10)];
      assert Digits(n, width + k) == Digits(n / 10, width + k - 1) + [DigitOf(n % 10)];
    }
  }

  /** The part of a file name behind the year. */
  function NameTail(m: Month): string {
    "-" + (Digits(m.month, 2) + ".jsonl")
  }

  lemma NameParts(m: Month)
    requires m.InCalendar()
    ensures FileName(m) == "audit-" + (Digits(m.year, YearWidth(m)) + NameTail(m))
  {
    MonthPadding(m);
    assert Padded(m.year, 4) == Digits(m.year, YearWidth(m));
  }

  lemma TailsSort(m: Month, m': Month)
    requires m.InCalendar() && m'.InCalendar() && m.month < m'.month
    ensures Less(NameTail(m), NameTail(m'))
  {
    MonthPadding(m');
    DigitsOrder(m.month, m'.month, 2);
    LessWithSuffix(Digits(m.month, 2), Digits(m'.month, 2), ".jsonl", ".jsonl");
    LessAfterPrefix("-", Digits(m.month, 2) + ".jsonl", Digits(m'.month, 2) + ".jsonl");
  }

  /** Two years of the same width, or a shorter one against the beginning of a longer one. */
  lemma YearsSort(y: nat, width: nat, y': nat, k: nat, t: string, t': string)
    requires y < Pow10(width) && y' < Pow10(width + k)
    requires t != "" && t[0] == '-'
    requires k == 0 && y == y' ==> Less(t, t')
    ensures y <= Leading(y', k) ==> Less(Digits(y, width) + t, Digits(y', width + k) + t')
    ensures y > Leading(y', k) ==> Less(Digits(y', width + k) + t', Digits(y, width) + t)
  {
    var tail := DigitsBegin(y', width, k);
    var p := Leading(y', k);
    assert Digits(y', width + k) + t' == Digits(p, width) + (tail + t');
    if y < p {
      DigitsOrder(y, p, width);
      LessWithSuffix(Digits(y, width), Digits(p, width), t, tail + t');
    } else if p < y {
      DigitsOrder(p, y, width);
      LessWithSuffix(Digits(p, width), Digits(y, width), tail + t', t);
    } else {
      LessAfterPrefix(Digits(y, width), t, tail + t');
      if k == 0 {
        assert tail + t' == t';
      } else {
        assert (tail + t')[0] == tail[0];
      }
    }
  }

  /**
   File names sort as their months do exactly when the years, cut to the same width, do; else they sort
   the other way round.
   */
  lemma FileNamesSortExactlyWhen(m: Month, m': Month)
    requires m.InCalendar() && m'.InCalendar() && m.Before(m')
    ensures Less(FileName(m), FileName(m')) <==> Sorts(m, m')
    ensures !Sorts(m, m') ==> Less(FileName(m'), FileName(m))
  {
    NameParts(m);
    NameParts(m');
    WidthGrows(m.year, m'.year);
    WidthBounds(m.year, YearWidth(m));
    WidthBounds(m'.year, YearWidth(m'));
    if m.year == m'.year {
      TailsSort(m, m');
    }
    var width, k := YearWidth(m), YearWidth(m') - YearWidth(m);
    YearsSort(m.year, width, m'.year, k, NameTail(m), NameTail(m'));
    var n, n' := Digits(m.year, width) + NameTail(m), Digits(m'.year, width + k) + NameTail(m');
    LessAfterPrefix("audit-", n, n');
    LessAfterPrefix("audit-", n', n);
    LessIsOrder(n, n');
  }

  /** With four-digit years the zero padding makes every two names sort by time. */
  lemma FourDigitYearsSort(m: Month, m': Month)
    requires m.Before(m') && m'.year <= 9999
    ensures Sorts(m, m')
  {
    WidthGrows(m.year, m'.year);
    WidthGrows(m'.year, 9999);
    Width9999();
  }

  lemma Width9999()
    ensures Width(9999) == 4
  {
    assert Width(9999) == 1 + Width(999) && Width(999) == 1 + Width(99) && Width(99) == 1 + Width(9);
  }

  lemma Width10000()
    ensures Width(10000) == 5 && Leading(10000, 1) == 1000
  {
    assert Width(10000) == 1 + Width(1000) && Width(1000) == 1 + Width(100) && Width(100) == 1 + Width(10);
    assert Leading(10000, 1) == Leading(1000, 0) == 1000;
  }

  /** With a fifth digit in the year the names no longer sort by time. */
  lemma FifthDigitBreaksOrder()
    ensures Month(9999, 12).Before(Month(10000, 1))
    ensures Less(FileName(Month(10000, 1)), FileName(Month(9999, 12)))
  {
    var m, m' := Month(9999, 12), Month(10000, 1);
    assert !Sorts(m, m') by {
      Width9999();
      Width10000();
    }
    FileNamesSortExactlyWhen(m, m');
  }

  /** Log files are those with a name before the extension `.jsonl`. */
  lemma LogFilesHaveTheExtension(name: string)
    ensures IsLogFile(name) <==> exists stem: string :: stem != "" && name == stem + ".jsonl"
  {
    if IsLogFile(name) {
      assert name == name[..|name| - 6] + ".jsonl";
    }
    if stem: string :| stem != "" && name == stem + ".jsonl" {
      assert name[|name| - 6..] == ".jsonl";
    }
  }

  lemma FileNamesAreLogFiles(m: Month)
    ensures IsLogFile(FileName(m))
  {
    var stem := "audit-" + Padded(m.year, 4) + "-" + Padded(m.month, 2);
    assert FileName(m) == stem + ".jsonl";
    assert FileName(m)[|stem|..] == ".jsonl";
  }
}
