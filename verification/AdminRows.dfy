/** The editable rows of the admin panel against the entries they stand for. */
module AdminRows {
  import opened Wrappers
  import opened Lists
  import AdminConfig

  datatype BinaryEntry = BinaryEntry(name: string, allowed: bool, path: Option<string>, args: seq<string>)

  datatype ExecAllowlistRow = ExecAllowlistRow(name: string, path: string, allowed: bool, args: string)

  datatype CriteriaRow = CriteriaRow(category: string, patternsText: string)

  function FromBinary(entry: BinaryEntry): ExecAllowlistRow {
    var path := if entry.path.Some? then entry.path.value else "";
    ExecAllowlistRow(entry.name, path, entry.allowed, Join(entry.args, ", "))
  }

  function ToBinary(row: ExecAllowlistRow): BinaryEntry {
    BinaryEntry(row.name, row.allowed, if row.path == "" then None else Some(row.path), Items(row.args, ','))
  }

  function FromSet(patternSet: AdminConfig.CriteriaPatternSet): CriteriaRow {
    CriteriaRow(patternSet.category, Join(patternSet.patterns, "\n"))
  }

  function ToPatternSet(row: CriteriaRow): AdminConfig.CriteriaPatternSet {
    AdminConfig.CriteriaPatternSet(row.category, LineItems(row.patternsText))
  }

  lemma ArgsRoundTrip(args: seq<string>)
    ensures Items(Join(args, ", "), ',') == args <==> AllClean(args, ',')
  {
    assert [','] + " " == ", ";
    ItemsAreClean(Join(args, ", "), ',');
    if AllClean(args, ',') {
      ItemsOfJoin(args, ',', " ");
    }
  }

  lemma PatternsRoundTrip(patterns: seq<string>)
    ensures LineItems(Join(patterns, "\n")) == patterns <==> AllClean(patterns, '\n')
  {
    assert ['\n'] + "" == "\n";
    LinesAreSplit(Join(patterns, "\n"));
    ItemsAreClean(Join(patterns, "\n"), '\n');
    if AllClean(patterns, '\n') {
      ItemsOfJoin(patterns, '\n', "");
    }
  }

  /** What saving and loading keep: every field, the arguments as the trimmed pieces that are not blank. */
  lemma RowsKeepTheirFields(row: ExecAllowlistRow, entry: BinaryEntry)
    ensures var saved := ToBinary(row);
            && saved.name == row.name && saved.allowed == row.allowed
            && (saved.path == None <==> row.path == "") && (saved.path.Some? ==> saved.path.value == row.path)
            && saved.args == Cleaned(Split(row.args, ','))
    ensures var loaded := FromBinary(entry);
            && loaded.name == entry.name && loaded.allowed == entry.allowed
            && (entry.path.Some? ==> loaded.path == entry.path.value) && (entry.path.None? ==> loaded.path == "")
  {
  }

  /** One save normalises a row: loading and saving again changes nothing. */
  lemma BinaryRowsNormaliseOnce(row: ExecAllowlistRow)
    ensures ToBinary(FromBinary(ToBinary(row))) == ToBinary(row)
  {
    ItemsAreClean(row.args, ',');
    ArgsRoundTrip(Items(row.args, ','));
  }

  lemma CriteriaRowsNormaliseOnce(row: CriteriaRow)
    ensures ToPatternSet(FromSet(ToPatternSet(row))) == ToPatternSet(row)
  {
    LinesAreSplit(row.patternsText);
    ItemsAreClean(row.patternsText, '\n');
    PatternsRoundTrip(LineItems(row.patternsText));
  }

  /** Editing an entry without touching it keeps it exactly when its arguments are clean and its path is not empty. */
  lemma BinaryEntriesSurviveExactlyWhen(entry: BinaryEntry)
    ensures ToBinary(FromBinary(entry)) == entry <==> AllClean(entry.args, ',') && entry.path != Some("")
  {
    ArgsRoundTrip(entry.args);
  }

  lemma PatternSetsSurviveExactlyWhen(patternSet: AdminConfig.CriteriaPatternSet)
    ensures ToPatternSet(FromSet(patternSet)) == patternSet <==> AllClean(patternSet.patterns, '\n')
  {
    PatternsRoundTrip(patternSet.patterns);
  }
}
