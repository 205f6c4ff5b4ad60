/** What reading the log back gives, for any history of appends. */
module AuditReplay {
  import opened Wrappers
  import opened Text
  import opened Lists
  import opened PathOrder
  import opened AuditLog

  datatype Appended = Appended(entry: AuditEntry, when: Month)

  function NameOf(append: Appended): string {
    FileName(append.when)
  }

  predicate NotAfter(a: string, b: string) {
    a == b || Less(a, b)
  }

  /** No append goes to a file sorting before that of an earlier append. */
  predicate NamesInOrder(appends: seq<Appended>) {
    forall i, j | 0 <= i < j < |appends| :: NotAfter(NameOf(appends[i]), NameOf(appends[j]))
  }

  function DirectoryAfter(c: Codec, appends: seq<Appended>): Directory {
    if appends == [] then map[]
    else
      var last := appends[|appends| - 1];
      AppendTo(c, DirectoryAfter(c, appends[..|appends| - 1]), NameOf(last), last.entry)
  }

  function EntriesAppended(appends: seq<Appended>): seq<AuditEntry> {
    seq(|appends|, i requires 0 <= i < |appends| => appends[i].entry)
  }

  /** Every line of the text is terminated. */
  predicate Terminated(content: string) {
    content != "" ==> content[|content| - 1] == '\n'
  }

  /** Terminated text is empty or a first line followed by terminated text. */
  lemma FirstLine(a: string) returns (first: string, rest: string)
    requires Terminated(a) && a != ""
    ensures '\n' !in first && a == first + ['\n'] + rest
    ensures Terminated(rest)
  {
    assert '\n' in a;
    var i := IndexOf(a, '\n');
    first, rest := a[..i], a[i + 1..];
    if rest != "" { assert rest[|rest| - 1] == a[|a| - 1]; }
  }

  lemma LinesBegin(first: string, rest: string)
    requires '\n' !in first
    ensures Lines(first + ['\n'] + rest) == [StripReturn(first)] + Lines(rest)
  {
    FirstPiece(first, '\n', rest);
  }

  lemma Prepended(head: string, rest: string, b: string, x: string, lines: string -> seq<string>)
    requires lines(head + rest) == [x] + lines(rest) && lines(head + (rest + b)) == [x] + lines(rest + b)
    requires lines(rest + b) == lines(rest) + lines(b)
    ensures lines(head + rest + b) == lines(head + rest) + lines(b)
  {
    assert head + rest + b == head + (rest + b);
  }

  lemma LinesPrepended(first: string, rest: string, b: string)
    requires '\n' !in first && Lines(rest + b) == Lines(rest) + Lines(b)
    ensures Lines(first + ['\n'] + rest + b) == Lines(first + ['\n'] + rest) + Lines(b)
  {
    LinesBegin(first, rest);
    LinesBegin(first, rest + b);
    Prepended(first + ['\n'], rest, b, StripReturn(first), Lines);
  }

  lemma {:induction false} LinesConcat(a: string, b: string)
    requires Terminated(a)
    ensures Lines(a + b) == Lines(a) + Lines(b)
    decreases |a|
  {
    if a == "" {
      assert a + b == b;
    } else {
      var first, rest := FirstLine(a);
      LinesConcat(rest, b);
      LinesPrepended(first, rest, b);
    }
  }

  lemma EncodedLine(c: Codec, entry: AuditEntry)
    requires GoodCodec(c)
    ensures EntriesIn(c, c.encode(entry) + "\n") == [entry]
  {
    var line := c.encode(entry);
    assert line != "" && Trimmed(line) && '\n' !in line && c.decode(line) == Some(entry);
    assert line + "\n" == line + "\n" + "";
    FirstPiece(line, '\n', "");
    assert StripReturn(line) == line;
    TrimOfTrimmed(line);
    assert [line][1..] == [] && EntriesOf(c, []) == [];
  }

  lemma EntriesInConcat(c: Codec, a: string, b: string)
    requires Terminated(a)
    ensures EntriesIn(c, a + b) == EntriesIn(c, a) + EntriesIn(c, b)
  {
    LinesConcat(a, b);
    EntriesOfConcat(c, Lines(a), Lines(b));
  }

  lemma AppendedEntry(c: Codec, content: string, entry: AuditEntry)
    requires GoodCodec(c) && Terminated(content)
    ensures EntriesIn(c, content + c.encode(entry) + "\n") == EntriesIn(c, content) + [entry]
  {
    var line := c.encode(entry) + "\n";
    assert content + c.encode(entry) + "\n" == content + line;
    EntriesInConcat(c, content, line);
    EncodedLine(c, entry);
  }

  /** Every file is a terminated log file that belongs to some append. */
  lemma {:induction false} FileWasAppended(c: Codec, appends: seq<Appended>, name: string) returns (i: nat)
    requires name in DirectoryAfter(c, appends)
    ensures i < |appends| && NameOf(appends[i]) == name
    ensures IsLogFile(name) && Terminated(DirectoryAfter(c, appends)[name])
  {
    i := |appends| - 1;
    FileNamesAreLogFiles(appends[i].when);
    if name in DirectoryAfter(c, appends[..i]) {
      var k := FileWasAppended(c, appends[..i], name);
      i := k;
    }
  }

  /** The file sorting after all others is the last of any listing. */
  lemma GreatestIsLast(dir: Directory, files: seq<string>, name: string)
    requires Listing(dir, files) && name in dir && IsLogFile(name)
    requires forall other | other in dir && IsLogFile(other) :: other == name || Less(other, name)
    ensures files != [] && files[|files| - 1] == name
    ensures forall i | 0 <= i < |files| - 1 :: files[i] != name
  {
    var last := files[|files| - 1];
    assert last in dir;
    LastIsGreatest(files, name);
    LessIsOrder(name, last);
    forall k | 0 <= k < |files| - 1
      ensures files[k] != name
    {
      LessIsOrder(files[k], files[|files| - 1]);
    }
  }

  lemma {:induction false} SameFilesSameEntries(c: Codec, dir: Directory, dir': Directory, files: seq<string>)
    requires forall i | 0 <= i < |files| :: files[i] in dir && files[i] in dir' && dir[files[i]] == dir'[files[i]]
    ensures EntriesOfFiles(c, dir, files) == EntriesOfFiles(c, dir', files)
  {
    if files != [] {
      SameFilesSameEntries(c, dir, dir', files[..|files| - 1]);
    }
  }

  lemma AppendReadsBack(c: Codec, before: Directory, name: string, entry: AuditEntry)
    requires GoodCodec(c) && (name in before ==> Terminated(before[name]))
    ensures EntriesIn(c, AppendTo(c, before, name, entry)[name]) ==
            (if name in before then EntriesIn(c, before[name]) else []) + [entry]
  {
    AppendedEntry(c, if name in before then before[name] else "", entry);
    assert EntriesIn(c, "") == [];
  }

  /** Changing only the last file of a listing, by one entry at its end, adds that entry at the end of what is read. */
  lemma LastFileGrows(c: Codec, before: Directory, dir: Directory, files: seq<string>, earlier: seq<AuditEntry>,
                      entry: AuditEntry)
    requires files != []
    requires forall i | 0 <= i < |files| :: files[i] in dir
    requires forall i | 0 <= i < |files| - 1 :: files[i] in before && before[files[i]] == dir[files[i]]
    requires EntriesIn(c, dir[files[|files| - 1]]) == earlier + [entry]
    ensures EntriesOfFiles(c, dir, files) == EntriesOfFiles(c, before, files[..|files| - 1]) + earlier + [entry]
  {
    SameFilesSameEntries(c, dir, before, files[..|files| - 1]);
  }

  lemma LatestFileIsLast(c: Codec, appends: seq<Appended>, files: seq<string>)
    requires NamesInOrder(appends) && appends != []
    requires Listing(DirectoryAfter(c, appends), files)
    ensures files != [] && files[|files| - 1] == NameOf(appends[|appends| - 1])
    ensures forall i | 0 <= i < |files| - 1 :: files[i] != files[|files| - 1]
  {
    var dir, name := DirectoryAfter(c, appends), NameOf(appends[|appends| - 1]);
    FileNamesAreLogFiles(appends[|appends| - 1].when);
    forall other | other in dir && IsLogFile(other)
      ensures other == name || Less(other, name)
    {
      var i := FileWasAppended(c, appends, other);
      assert i < |appends| - 1 ==> NotAfter(NameOf(appends[i]), NameOf(appends[|appends| - 1]));
    }
    GreatestIsLast(dir, files, name);
  }

  lemma ListingWithoutLast(dir: Directory, before: Directory, files: seq<string>, name: string)
    requires Listing(dir, files) && files != [] && files[|files| - 1] == name
    requires dir.Keys == before.Keys + {name} && name !in before
    requires forall i | 0 <= i < |files| - 1 :: files[i] != name
    ensures Listing(before, files[..|files| - 1])
  {
    var k := |files| - 1;
    forall other | other in before && IsLogFile(other)
      ensures other in files[..k]
    {
      assert other in dir;
      var i :| 0 <= i < |files| && files[i] == other;
      assert files[..k][i] == other;
    }
  }

  /** The listing before the file `name`, its last, was written. */
  function FilesBefore(before: Directory, name: string, files: seq<string>): seq<string>
    requires files != []
  {
    if name in before then files else files[..|files| - 1]
  }

  lemma ListingBefore(before: Directory, dir: Directory, name: string, files: seq<string>)
    requires Listing(dir, files) && files != [] && files[|files| - 1] == name
    requires dir.Keys == before.Keys + {name}
    requires forall i | 0 <= i < |files| - 1 :: files[i] != name
    ensures Listing(before, FilesBefore(before, name, files))
  {
    if name in before {
      assert before.Keys == dir.Keys;
    } else {
      ListingWithoutLast(dir, before, files, name);
    }
  }

  lemma EntriesBefore(c: Codec, before: Directory, name: string, files: seq<string>)
    requires files != [] && files[|files| - 1] == name
    requires forall i | 0 <= i < |files| - 1 :: files[i] in before
    ensures EntriesOfFiles(c, before, FilesBefore(before, name, files)) ==
            EntriesOfFiles(c, before, files[..|files| - 1])
            + (if name in before then EntriesIn(c, before[name]) else [])
  {
  }

  lemma OneMoreEntry(front: seq<Appended>, last: Appended)
    ensures EntriesAppended(front + [last]) == EntriesAppended(front) + [last.entry]
  {
  }

  /** Undoing one append takes exactly its entry off the end of what is read. */
  lemma UndoAppend(c: Codec, before: Directory, name: string, entry: AuditEntry, dir: Directory, files: seq<string>)
    requires GoodCodec(c) && (name in before ==> Terminated(before[name]))
    requires dir == AppendTo(c, before, name, entry) && Listing(dir, files)
    requires files != [] && files[|files| - 1] == name
    requires forall i | 0 <= i < |files| - 1 :: files[i] != name
    ensures Listing(before, FilesBefore(before, name, files))
    ensures EntriesOfFiles(c, dir, files) == EntriesOfFiles(c, before, FilesBefore(before, name, files)) + [entry]
  {
    AppendReadsBack(c, before, name, entry);
    ListingBefore(before, dir, name, files);
    EntriesBefore(c, before, name, files);
    LastFileGrows(c, before, dir, files, if name in before then EntriesIn(c, before[name]) else [], entry);
  }

  lemma TakeBackLast(c: Codec, appends: seq<Appended>, files: seq<string>) returns (earlier: seq<string>)
    requires GoodCodec(c) && NamesInOrder(appends) && appends != []
    requires Listing(DirectoryAfter(c, appends), files)
    ensures Listing(DirectoryAfter(c, appends[..|appends| - 1]), earlier)
    ensures EntriesOfFiles(c, DirectoryAfter(c, appends), files) ==
            EntriesOfFiles(c, DirectoryAfter(c, appends[..|appends| - 1]), earlier) + [appends[|appends| - 1].entry]
  {
    var front, last := appends[..|appends| - 1], appends[|appends| - 1];
    var name, before := NameOf(last), DirectoryAfter(c, front);
    LatestFileIsLast(c, appends, files);
    if name in before { var _ := FileWasAppended(c, front, name); }
    UndoAppend(c, before, name, last.entry, DirectoryAfter(c, appends), files);
    earlier := FilesBefore(before, name, files);
  }

  /** With the names in order, reading back gives exactly the entries appended, in the order they were appended. */
  lemma {:induction false} Replay(c: Codec, appends: seq<Appended>, files: seq<string>)
    requires GoodCodec(c) && NamesInOrder(appends)
    requires Listing(DirectoryAfter(c, appends), files)
    ensures EntriesOfFiles(c, DirectoryAfter(c, appends), files) == EntriesAppended(appends)
  {
    if appends == [] {
      assert DirectoryAfter(c, appends) == map[];
    } else {
      var front, last := appends[..|appends| - 1], appends[|appends| - 1];
      var earlier := TakeBackLast(c, appends, files);
      Replay(c, front, earlier);
      OneMoreEntry(front, last);
      assert appends == front + [last];
    }
  }

  // ---- Logs that read back in another order ----

  ghost predicate InFile(c: Codec, dir: Directory, append: Appended) {
    NameOf(append) in dir && append.entry in EntriesIn(c, dir[NameOf(append)])
  }

  lemma AppendedIsInFile(c: Codec, before: Directory, last: Appended, append: Appended)
    requires GoodCodec(c) && (NameOf(last) in before ==> Terminated(before[NameOf(last)]))
    requires append == last || InFile(c, before, append)
    ensures InFile(c, AppendTo(c, before, NameOf(last), last.entry), append)
  {
    if NameOf(append) == NameOf(last) {
      AppendReadsBack(c, before, NameOf(last), last.entry);
    }
  }

  /** An appended entry stays in the file it was appended to. */
  lemma {:induction false} EntryIsInItsFile(c: Codec, appends: seq<Appended>, i: nat)
    requires GoodCodec(c) && i < |appends|
    ensures InFile(c, DirectoryAfter(c, appends), appends[i])
  {
    var n := |appends| - 1;
    var front, last := appends[..n], appends[n];
    var before := DirectoryAfter(c, front);
    assert NameOf(last) in before ==> Terminated(before[NameOf(last)]) by {
      if NameOf(last) in before { var _ := FileWasAppended(c, front, NameOf(last)); }
    }
    if i < n {
      EntryIsInItsFile(c, front, i);
      assert front[i] == appends[i];
    }
    AppendedIsInFile(c, before, last, appends[i]);
  }

  lemma {:induction false} ReadingGrows(c: Codec, dir: Directory, files: seq<string>, k: nat)
    requires k <= |files| && forall i | 0 <= i < |files| :: files[i] in dir
    ensures EntriesOfFiles(c, dir, files[..k]) <= EntriesOfFiles(c, dir, files)
  {
    if k == |files| {
      assert files[..k] == files;
    } else {
      var n := |files| - 1;
      ReadingGrows(c, dir, files[..n], k);
      assert files[..n][..k] == files[..k];
    }
  }

  lemma ReadsNext(c: Codec, dir: Directory, files: seq<string>, p: nat)
    requires p < |files| && forall i | 0 <= i < |files| :: files[i] in dir
    ensures EntriesOfFiles(c, dir, files[..p + 1]) == EntriesOfFiles(c, dir, files[..p]) + EntriesIn(c, dir[files[p]])
  {
    assert files[..p + 1][..p] == files[..p];
  }

  lemma InTheMiddle<T>(before: seq<T>, here: seq<T>, all: seq<T>, k: nat)
    requires before + here <= all && k < |here|
    ensures |before| + k < |all| && all[|before| + k] == here[k]
  {
    assert (before + here)[|before| + k] == here[k];
  }

  /** An entry of the file at position `p` is read after all of the files before it. */
  lemma PositionRead(c: Codec, dir: Directory, files: seq<string>, p: nat, entry: AuditEntry) returns (x: nat)
    requires forall i | 0 <= i < |files| :: files[i] in dir
    requires p < |files| && entry in EntriesIn(c, dir[files[p]])
    ensures |EntriesOfFiles(c, dir, files[..p])| <= x < |EntriesOfFiles(c, dir, files[..p + 1])|
    ensures x < |EntriesOfFiles(c, dir, files)| && EntriesOfFiles(c, dir, files)[x] == entry
  {
    var before, here := EntriesOfFiles(c, dir, files[..p]), EntriesIn(c, dir[files[p]]);
    var k: nat :| k < |here| && here[k] == entry;
    x := |before| + k;
    ReadsNext(c, dir, files, p);
    ReadingGrows(c, dir, files, p + 1);
    InTheMiddle(before, here, EntriesOfFiles(c, dir, files), k);
  }

  lemma PositionsFollowFiles(c: Codec, dir: Directory, files: seq<string>, p: nat, q: nat)
    requires forall i | 0 <= i < |files| :: files[i] in dir
    requires p < q <= |files|
    ensures |EntriesOfFiles(c, dir, files[..p + 1])| <= |EntriesOfFiles(c, dir, files[..q])|
  {
    ReadingGrows(c, dir, files[..q], p + 1);
    assert files[..q][..p + 1] == files[..p + 1];
  }

  /** In any log, of two appends whose file names do not sort as they came the later one is read first. */
  lemma UnsortedNamesReadBackwards(c: Codec, appends: seq<Appended>, files: seq<string>, i: nat, j: nat)
    returns (x: nat, y: nat)
    requires GoodCodec(c) && Listing(DirectoryAfter(c, appends), files)
    requires i < j < |appends| && Less(NameOf(appends[j]), NameOf(appends[i]))
    ensures x < y < |EntriesOfFiles(c, DirectoryAfter(c, appends), files)|
    ensures EntriesOfFiles(c, DirectoryAfter(c, appends), files)[x] == appends[j].entry
    ensures EntriesOfFiles(c, DirectoryAfter(c, appends), files)[y] == appends[i].entry
  {
    var dir := DirectoryAfter(c, appends);
    EntryIsInItsFile(c, appends, i);
    EntryIsInItsFile(c, appends, j);
    FileNamesAreLogFiles(appends[i].when);
    FileNamesAreLogFiles(appends[j].when);
    var p: nat :| p < |files| && files[p] == NameOf(appends[j]);
    var q: nat :| q < |files| && files[q] == NameOf(appends[i]);
    LessIsOrder(files[p], files[q]);
    assert p < q;
    x := PositionRead(c, dir, files, p, appends[j].entry);
    y := PositionRead(c, dir, files, q, appends[i].entry);
    PositionsFollowFiles(c, dir, files, p, q);
  }

  predicate DistinctEntries(appends: seq<Appended>) {
    forall i, j | 0 <= i < j < |appends| :: appends[i].entry != appends[j].entry
  }

  lemma BackwardsIsNoReplay(appends: seq<Appended>, reading: seq<AuditEntry>, i: nat, j: nat, x: nat, y: nat)
    requires DistinctEntries(appends) && i < j < |appends| && x < y < |reading|
    requires reading[x] == appends[j].entry && reading[y] == appends[i].entry
    ensures reading != EntriesAppended(appends)
  {
  }

  /** A log of different entries reads back as it was written if and only if its file names were in order. */
  lemma ReplayExactlyWhen(c: Codec, appends: seq<Appended>, files: seq<string>)
    requires GoodCodec(c) && DistinctEntries(appends) && Listing(DirectoryAfter(c, appends), files)
    ensures EntriesOfFiles(c, DirectoryAfter(c, appends), files) == EntriesAppended(appends) <==> NamesInOrder(appends)
  {
    if NamesInOrder(appends) {
      Replay(c, appends, files);
    } else {
      var i: nat, j: nat :| i < j < |appends| && !NotAfter(NameOf(appends[i]), NameOf(appends[j]));
      LessIsOrder(NameOf(appends[i]), NameOf(appends[j]));
      var x, y := UnsortedNamesReadBackwards(c, appends, files, i, j);
      BackwardsIsNoReplay(appends, EntriesOfFiles(c, DirectoryAfter(c, appends), files), i, j, x, y);
    }
  }

  // ---- The same in terms of the clock ----

  /**
   What the months of an append and of a later one must be: the clock may even go back, where the names
   sort backwards.
   */
  predicate MonthsInOrder(m: Month, m': Month) {
    m == m' || (m.Before(m') && Sorts(m, m')) || (m'.Before(m) && !Sorts(m', m))
  }

  lemma MonthsOrderNames(m: Month, m': Month)
    requires m.InCalendar() && m'.InCalendar()
    ensures NotAfter(FileName(m), FileName(m')) <==> MonthsInOrder(m, m')
  {
    LessIsOrder(FileName(m), FileName(m'));
    if m.Before(m') {
      FileNamesSortExactlyWhen(m, m');
    } else if m'.Before(m) {
      FileNamesSortExactlyWhen(m', m);
    } else {
      assert m == m';
    }
  }

  predicate InCalendar(appends: seq<Appended>) {
    forall i | 0 <= i < |appends| :: appends[i].when.InCalendar()
  }

  /** The exact condition for replay, read off the clock. */
  lemma CalendarReplay(c: Codec, appends: seq<Appended>, files: seq<string>)
    requires GoodCodec(c) && DistinctEntries(appends) && Listing(DirectoryAfter(c, appends), files)
    requires InCalendar(appends)
    ensures EntriesOfFiles(c, DirectoryAfter(c, appends), files) == EntriesAppended(appends) <==>
            forall i, j | 0 <= i < j < |appends| :: MonthsInOrder(appends[i].when, appends[j].when)
  {
    ReplayExactlyWhen(c, appends, files);
    CalendarOrder(appends);
  }

  lemma CalendarOrder(appends: seq<Appended>)
    requires InCalendar(appends)
    ensures NamesInOrder(appends) <==>
            forall i, j | 0 <= i < j < |appends| :: MonthsInOrder(appends[i].when, appends[j].when)
  {
    forall i, j | 0 <= i < j < |appends|
      ensures NotAfter(NameOf(appends[i]), NameOf(appends[j])) <==> MonthsInOrder(appends[i].when, appends[j].when)
    {
      MonthsOrderNames(appends[i].when, appends[j].when);
    }
  }

  /** The clock never goes back by a month. */
  predicate ClockAdvances(appends: seq<Appended>) {
    forall i, j | 0 <= i < j < |appends| :: !appends[j].when.Before(appends[i].when)
  }

  lemma FourDigitMonths(m: Month, m': Month)
    requires m.InCalendar() && m'.InCalendar() && m.year <= 9999 && m'.year <= 9999
    ensures NotAfter(FileName(m), FileName(m')) <==> !m'.Before(m)
  {
    MonthsOrderNames(m, m');
    if m.Before(m') {
      FourDigitYearsSort(m, m');
    } else if m'.Before(m) {
      FourDigitYearsSort(m', m);
    }
  }

  /** For years 0 to 9999 a clock that never goes back is enough and, for different entries, also needed. */
  lemma FourDigitReplay(c: Codec, appends: seq<Appended>, files: seq<string>)
    requires GoodCodec(c) && Listing(DirectoryAfter(c, appends), files)
    requires InCalendar(appends) && forall i | 0 <= i < |appends| :: appends[i].when.year <= 9999
    ensures ClockAdvances(appends) ==> EntriesOfFiles(c, DirectoryAfter(c, appends), files) == EntriesAppended(appends)
    ensures DistinctEntries(appends)
            && EntriesOfFiles(c, DirectoryAfter(c, appends), files) == EntriesAppended(appends) ==>
              ClockAdvances(appends)
  {
    assert NamesInOrder(appends) <==> ClockAdvances(appends) by {
      forall i, j | 0 <= i < j < |appends|
        ensures NotAfter(NameOf(appends[i]), NameOf(appends[j])) <==> !appends[j].when.Before(appends[i].when)
      {
        FourDigitMonths(appends[i].when, appends[j].when);
      }
    }
    if ClockAdvances(appends) {
      Replay(c, appends, files);
    } else if DistinctEntries(appends) {
      ReplayExactlyWhen(c, appends, files);
    }
  }

  // ---- Malformed lines ----

  lemma MalformedLine(c: Codec, junk: string)
    requires Trim(junk) == "" || c.decode(Trim(junk)).None?
    ensures EntriesOf(c, [junk]) == []
  {
    assert [junk][1..] == [] && EntriesOf(c, []) == [];
  }

  lemma MalformedFirstLine(c: Codec, junk: string, after: string)
    requires '\n' !in junk
    requires Trim(StripReturn(junk)) == "" || c.decode(Trim(StripReturn(junk))).None?
    ensures EntriesIn(c, junk + ['\n'] + after) == EntriesIn(c, after)
  {
    FirstPiece(junk, '\n', after);
    MalformedLine(c, StripReturn(junk));
    EntriesOfConcat(c, [StripReturn(junk)], Lines(after));
  }

  /** A malformed line between complete lines is skipped and disturbs nothing else. */
  lemma MalformedLinesAreSkipped(c: Codec, before: string, junk: string, after: string)
    requires Terminated(before) && '\n' !in junk
    requires Trim(StripReturn(junk)) == "" || c.decode(Trim(StripReturn(junk))).None?
    ensures EntriesIn(c, before + (junk + ['\n'] + after)) == EntriesIn(c, before) + EntriesIn(c, after)
  {
    var rest := junk + ['\n'] + after;
    EntriesInConcat(c, before, rest);
    MalformedFirstLine(c, junk, after);
  }
}
