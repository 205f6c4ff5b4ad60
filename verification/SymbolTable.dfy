/** The operation symbols as they are written: which tags there are, and which of them the owner must approve. */
module SymbolTable {
  import opened Text
  import opened Symbols
  import opened Criteria
  import AdminConfig
  import Executor

  const CRIT := "CRIT."
  const OPS := "OPS."

  /** The first letter of a name says its classification. */
  lemma NamesTellClassification(s: Symbol)
    ensures s.Classification() == Critical <==> StartsWith(s.LiteralName(), CRIT)
    ensures s.Classification() == SymbolClassification.Delegable <==> StartsWith(s.LiteralName(), OPS)
  {
    if s.Classification() == Critical {
      CriticalNamesBegin(s);
    } else {
      DelegableNamesBegin(s);
    }
  }

  lemma CriticalNamesBegin(s: Symbol)
    requires s.Classification() == Critical
    ensures StartsWith(s.LiteralName(), CRIT) && !StartsWith(s.LiteralName(), OPS)
  {
    assert s.LiteralName()[0] == 'C';
  }

  lemma DelegableNamesBegin(s: Symbol)
    requires s.Classification() == SymbolClassification.Delegable
    ensures StartsWith(s.LiteralName(), OPS) && !StartsWith(s.LiteralName(), CRIT)
  {
    assert s.LiteralName()[0] == 'O';
  }

  /** The names the administrator's configuration protects are those of the critical symbols. */
  lemma ProtectedNamesAreCritical(name: string)
    ensures name in AdminConfig.CRITICAL_SYMBOLS <==>
            exists s: Symbol :: IsNamed(s, name) && s.Classification() == Critical
  {
    if name in AdminConfig.CRITICAL_SYMBOLS {
      var s := ProtectedSymbol(name);
    }
    if s: Symbol :| IsNamed(s, name) && s.Classification() == Critical {
      CriticalIsProtected(s);
    }
  }

  lemma ProtectedSymbol(name: string) returns (s: Symbol)
    requires name in AdminConfig.CRITICAL_SYMBOLS
    ensures IsNamed(s, name) && s.Classification() == Critical
  {
    s := if name == "CRIT.IRREVERSIBLE" then CritIrreversible
         else if name == "CRIT.SYS.SECURITY" then CritSysSecurity
         else if name == "CRIT.SECRET" then CritSecret
         else if name == "CRIT.EGRESS" then CritEgress
         else if name == "CRIT.FINANCIAL" then CritFinancial
         else if name == "CRIT.THIRD.PARTY" then CritThirdParty
         else CritUnclassified;
  }

  lemma CriticalIsProtected(s: Symbol)
    requires s.Classification() == Critical
    ensures s.LiteralName() in AdminConfig.CRITICAL_SYMBOLS
  {
  }

  // ---- The written tags ----

  /** What stands between `[[AB:` and `]]`. */
  function WrittenName(s: Symbol): string {
    match s
    case OpsAppOpen => "OPS.APP.OPEN"
    case OpsAppBrowse => "OPS.APP.BROWSE"
    case OpsFileCreate => "OPS.FILE.CREATE"
    case OpsFileEdit => "OPS.FILE.EDIT"
    case OpsFileDeleteRecoverable => "OPS.FILE.DELETE.RECOVERABLE"
    case OpsTermRunLocal => "OPS.TERM.RUN.LOCAL"
    case OpsInputHid => "OPS.INPUT.HID"
    case CritIrreversible => "CRIT.IRREVERSIBLE"
    case CritSysSecurity => "CRIT.SYS.SECURITY"
    case CritSecret => "CRIT.SECRET"
    case CritEgress => "CRIT.EGRESS"
    case CritFinancial => "CRIT.FINANCIAL"
    case CritThirdParty => "CRIT.THIRD.PARTY"
    case CritUnclassified => "CRIT.UNCLASSIFIED"
  }

  function WrittenTag(s: Symbol): string {
    "[[AB:" + WrittenName(s) + "]]"
  }

  lemma TagsAreWritten(s: Symbol)
    ensures WrittenName(s) == s.LiteralName()
    ensures WrittenTag(s) == OPEN + s.LiteralName() + CLOSE
  {
  }

  /** What is printed: the tag alone, or the tag, one blank and the trimmed text. */
  lemma TagsArePrinted(s: Symbol, text: string)
    ensures Blank(text) ==> WithTag(s, text) == WrittenTag(s)
    ensures !Blank(text) ==> WithTag(s, text) == WrittenTag(s) + " " + Trim(text)
  {
    TagsAreWritten(s);
    BlankTrimsAway(text);
  }

  /** A command that begins with one of the 14 written tags is read as that symbol and the trimmed rest. */
  lemma WrittenTagsAreRead(s: Symbol, text: string)
    ensures ExtractFromCommand(WrittenTag(s) + text) == (s, Trim(text))
  {
    var name := s.LiteralName();
    var command := WrittenTag(s) + text;
    TagsAreWritten(s);
    TrimAfter(WrittenTag(s), text);
    var body := TrimEnd(text);
    assert Trim(command) == OPEN + (name + CLOSE + body);
    assert TagText(name + CLOSE + body, s, Trim(text)) by {
      NameCharacters(s);
      TrimOfTrimmed(name);
      TrimOfEnd(text);
    }
    TaggedIsExtracted(command, s, Trim(text));
  }

  lemma JoinedIsTrimmed(tag: string, rest: string)
    requires |tag| > 0 && !IsWhitespace(tag[0]) && !IsWhitespace(tag[|tag| - 1])
    requires rest != "" ==> !IsWhitespace(rest[|rest| - 1])
    ensures Trimmed(tag + rest)
  {
  }

  lemma TrimKept(kept: string, trail: string)
    requires Trimmed(kept) && Blank(trail)
    ensures Trim(kept + trail) == kept
  {
    assert "" + kept == kept;
    TrimIs("", kept, trail);
  }

  lemma TrimParts(tag: string, rest: string, trail: string)
    requires |tag| > 0 && !IsWhitespace(tag[0]) && !IsWhitespace(tag[|tag| - 1])
    requires rest != "" ==> !IsWhitespace(rest[|rest| - 1])
    requires Blank(trail)
    ensures Trim(tag + (rest + trail)) == tag + rest
  {
    JoinedIsTrimmed(tag, rest);
    TrimKept(tag + rest, trail);
    assert tag + (rest + trail) == tag + rest + trail;
  }

  lemma TrimAfter(tag: string, text: string)
    requires |tag| > 0 && !IsWhitespace(tag[0]) && !IsWhitespace(tag[|tag| - 1])
    ensures Trim(tag + text) == tag + TrimEnd(text)
  {
    var trail := TrimEndSplits(text);
    TrimParts(tag, TrimEnd(text), trail);
  }

  lemma TrimOfEnd(text: string)
    ensures Trim(TrimEnd(text)) == Trim(text)
  {
    var trail := TrimEndSplits(text);
    var lead, rest := TrimSplits(TrimEnd(text));
    assert text == lead + Trim(TrimEnd(text)) + (rest + trail);
    TrimIs(lead, Trim(TrimEnd(text)), rest + trail);
  }

  // ---- What the tags do to a plan ----

  lemma TrimKeepsStart(s: string, prefix: string)
    requires StartsWith(s, prefix) && prefix != "" && Trimmed(prefix)
    ensures StartsWith(Trim(s), prefix)
  {
    var rest := s[|prefix|..];
    assert s == prefix + rest;
    TrimAfter(prefix, rest);
  }

  /** Whatever follows `CRIT.` in a tag, the symbol read is a critical one. */
  lemma CriticalTagsAreCritical(command: string)
    requires StartsWith(Trim(command), "[[AB:CRIT.")
    ensures ExtractFromCommand(command).0.Classification() == Critical
  {
    var trimmed := Trim(command);
    assert "[[AB:CRIT." == OPEN + CRIT;
    var stripped := trimmed[|OPEN|..];
    assert StartsWith(stripped, CRIT);
    var parsed := ParseTag(stripped);
    if parsed.Some? {
      var end := Find(stripped, CLOSE).value;
      NoCloseInside(stripped, end);
      TrimKeepsStart(stripped[..end], CRIT);
      assert IsNamed(parsed.value.0, Trim(stripped[..end]));
      NamesTellClassification(parsed.value.0);
    }
  }

  lemma NoCloseInside(stripped: string, end: nat)
    requires StartsWith(stripped, CRIT) && OccursAt(stripped, CLOSE, end)
    ensures end >= |CRIT| && StartsWith(stripped[..end], CRIT)
  {
    assert stripped[end] == CLOSE[0] == ']' by { assert stripped[end..end + 2][0] == stripped[end]; }
    assert forall i | 0 <= i < |CRIT| :: stripped[i] == CRIT[i] && CRIT[i] != ']';
  }

  /** A plan with a command whose tag begins with `CRIT.` is never delegable, and the armed lock blocks the command. */
  lemma CriticalTagsNeedTheOwner(rx: RegexEngine, cfg: CriteriaConfig, commands: seq<string>, k: nat)
    requires k < |commands| && StartsWith(Trim(commands[k]), "[[AB:CRIT.")
    ensures Verdict(rx, cfg, commands) == NonDelegablePlan
    ensures Executor.EvaluateForCommand(true, commands[k]) == Executor.Block
  {
    CriticalTagsAreCritical(commands[k]);
    assert commands[k] in commands;
    assert !Blank(commands[k]) by { BlankTrimsAway(commands[k]); }
    Executor.SafetyLockMeaning(commands[k]);
  }

  /**
   A command behind a written tag is delegable exactly when the tag begins with `OPS.` and the
   text hits no criterion.
   */
  lemma WrittenTagDecides(rx: RegexEngine, cfg: CriteriaConfig, s: Symbol, text: string)
    ensures CleanCommand(rx, cfg, WrittenTag(s) + text) <==>
            StartsWith(WrittenName(s), "OPS.") && forall c: Criterion :: !Hit(rx, cfg, c, Lowered(text))
  {
    WrittenTagsAreRead(s, text);
    NamesTellClassification(s);
    TagsAreWritten(s);
    TrimTwice(text);
    assert Scanned(WrittenTag(s) + text) == Lowered(text);
  }
}
