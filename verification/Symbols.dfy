/** The operation symbols and the tag that carries one in front of a command. */
module Symbols {
  import opened Wrappers
  import opened Text

  datatype SymbolClassification = Delegable | Critical

  datatype Symbol =
    | OpsAppOpen
    | OpsAppBrowse
    | OpsFileCreate
    | OpsFileEdit
    | OpsFileDeleteRecoverable
    | OpsTermRunLocal
    | OpsInputHid
    | CritIrreversible
    | CritSysSecurity
    | CritSecret
    | CritEgress
    | CritFinancial
    | CritThirdParty
    | CritUnclassified
  {
    function LiteralName(): string {
      match this
      case OpsAppOpen => "OPS.APP.OPEN"
      case OpsAppBrowse => "OPS.APP.BROWSE"
      case OpsFileCreate => "OPS.FILE.CREATE"
      case OpsFileEdit => "OPS.FILE.EDIT"
      case OpsFileDeleteRecoverable => "OPS.FILE.DELETE.RECOVERABLE"
      case OpsTermRunLocal => "OPS.TERM.RUN.LOCAL"
      case OpsInputHid => "OPS.INPUT.HID"
      case CritIrreversible => "CRIT.IRREVERSIBLE"
      case CritSysSecurity => "CRIT.SYS.SECURITY"
      case CritSecret => "CRIT.SECRET"
      case CritEgress => "CRIT.EGRESS"
      case CritFinancial => "CRIT.FINANCIAL"
      case CritThirdParty => "CRIT.THIRD.PARTY"
      case CritUnclassified => "CRIT.UNCLASSIFIED"
    }

    function Classification(): SymbolClassification {
      match this
      case OpsAppOpen | OpsAppBrowse | OpsFileCreate | OpsFileEdit
         | OpsFileDeleteRecoverable | OpsTermRunLocal | OpsInputHid => Delegable
      case CritIrreversible | CritSysSecurity | CritSecret | CritEgress
         | CritFinancial | CritThirdParty | CritUnclassified => Critical
    }
  }

  const OPEN := "[[AB:"
  const CLOSE := "]]"

  /** Names are told apart by their length and two of their characters. */
  lemma LiteralNamesDiffer(s: Symbol, t: Symbol)
    ensures |s.LiteralName()| >= 11
    ensures s.LiteralName() == t.LiteralName() ==> s == t
  {
    var a, b := s.LiteralName(), t.LiteralName();
    if a == b {
      assert |a| == |b| && a[4] == b[4] && a[5] == b[5];
    }
  }

  predicate IsNamed(s: Symbol, name: string) {
    s.LiteralName() == name
  }

  lemma NamesAreUnique(name: string)
    ensures forall s, t | IsNamed(s, name) && IsNamed(t, name) :: s == t
  {
    forall s, t | IsNamed(s, name) && IsNamed(t, name)
      ensures s == t
    {
      LiteralNamesDiffer(s, t);
    }
  }

  /** The symbol of that name, if there is one. */
  function FromLiteral(name: string): (r: Option<Symbol>)
    ensures r.Some? <==> exists s: Symbol :: IsNamed(s, name)
    ensures r.Some? ==> IsNamed(r.value, name)
  {
    NamesAreUnique(name);
    if exists s: Symbol :: IsNamed(s, name) then
      var s: Symbol :| IsNamed(s, name);
      Some(s)
    else None
  }

  function WithTag(symbol: Symbol, command: string): string {
    var trimmed := Trim(command);
    if trimmed == "" then OPEN + symbol.LiteralName() + CLOSE
    else OPEN + symbol.LiteralName() + CLOSE + " " + trimmed
  }

  /** The tag's symbol and the trimmed rest, when the text after the opening bracket is well formed. */
  function ParseTag(stripped: string): Option<(Symbol, string)> {
    match Find(stripped, CLOSE)
    case None => None
    case Some(end) =>
      match FromLiteral(Trim(stripped[..end]))
      case Some(symbol) => Some((symbol, Trim(stripped[end + 2..])))
      case None => None
  }

  function ExtractFromCommand(command: string): (Symbol, string) {
    var trimmed := Trim(command);
    if !StartsWith(trimmed, OPEN) then (CritUnclassified, command)
    else
      match ParseTag(trimmed[|OPEN|..])
      case Some(parsed) => parsed
      case None => (CritUnclassified, command)
  }

  // ---- Names ----

  predicate NameCharacter(c: char) {
    'A' <= c <= 'Z' || c == '.'
  }

  lemma DelegableNames(s: Symbol)
    requires s.Classification() == Delegable
    ensures forall i | 0 <= i < |s.LiteralName()| :: NameCharacter(s.LiteralName()[i])
  {
  }

  lemma CriticalNames(s: Symbol)
    requires s.Classification() == Critical
    ensures forall i | 0 <= i < |s.LiteralName()| :: NameCharacter(s.LiteralName()[i])
  {
  }

  lemma NameCharacters(s: Symbol)
    ensures forall i | 0 <= i < |s.LiteralName()| :: NameCharacter(s.LiteralName()[i])
    ensures Trimmed(s.LiteralName())
  {
    if s.Classification() == Delegable {
      DelegableNames(s);
    } else {
      CriticalNames(s);
    }
    LiteralNamesDiffer(s, s);
  }

  lemma FromLiteralInverts(s: Symbol)
    ensures FromLiteral(s.LiteralName()) == Some(s)
  {
    assert IsNamed(s, s.LiteralName());
    NamesAreUnique(s.LiteralName());
  }

  // ---- What the parser accepts ----

  /** What may follow the opening bracket: the name of `symbol`, the closing bracket, and `rest`. */
  ghost predicate TagText(stripped: string, symbol: Symbol, rest: string) {
    exists name: string, body: string ::
      && stripped == name + CLOSE + body
      && Trim(name) == symbol.LiteralName()
      && Trim(body) == rest
  }

  /** The command is, up to surrounding white space, the tag of `symbol` followed by `rest`. */
  ghost predicate Tagged(command: string, symbol: Symbol, rest: string) {
    exists stripped: string :: Trim(command) == OPEN + stripped && TagText(stripped, symbol, rest)
  }

  lemma NoBracketInName(name: string, s: Symbol)
    requires Trim(name) == s.LiteralName()
    ensures forall i | 0 <= i < |name| :: name[i] != ']'
  {
    var lead, trail := TrimSplits(name);
    NameCharacters(s);
  }

  lemma FirstClose(name: string, body: string)
    requires forall i | 0 <= i < |name| :: name[i] != ']'
    ensures Find(name + CLOSE + body, CLOSE) == Some(|name|)
  {
    var s := name + CLOSE + body;
    assert OccursAt(s, CLOSE, |name|);
    forall j | 0 <= j < |name|
      ensures !OccursAt(s, CLOSE, j)
    {
      assert s[j] == name[j];
      if j + 2 <= |s| {
        assert s[j..j + 2][0] == s[j];
      }
    }
  }

  lemma FoundClose(name: string, symbol: Symbol, body: string)
    requires Trim(name) == symbol.LiteralName()
    ensures Find(name + CLOSE + body, CLOSE) == Some(|name|)
  {
    NoBracketInName(name, symbol);
    FirstClose(name, body);
  }

  lemma TagTextParses(stripped: string, symbol: Symbol, rest: string)
    requires TagText(stripped, symbol, rest)
    ensures ParseTag(stripped) == Some((symbol, rest))
  {
    var name: string, body: string :|
      stripped == name + CLOSE + body && Trim(name) == symbol.LiteralName() && Trim(body) == rest;
    FoundClose(name, symbol, body);
    assert stripped[..|name|] == name && stripped[|name| + 2..] == body;
    FromLiteralInverts(symbol);
  }

  lemma ParsedIsTagText(stripped: string)
    requires ParseTag(stripped).Some?
    ensures TagText(stripped, ParseTag(stripped).value.0, ParseTag(stripped).value.1)
  {
    var end := Find(stripped, CLOSE).value;
    var name, body := stripped[..end], stripped[end + 2..];
    var (symbol, rest) := ParseTag(stripped).value;
    assert stripped == name + CLOSE + body;
    assert IsNamed(symbol, Trim(name)) && Trim(body) == rest;
    assert Trim(name) == symbol.LiteralName();
  }

  lemma Unprefixed(trimmed: string, stripped: string)
    requires trimmed == OPEN + stripped
    ensures StartsWith(trimmed, OPEN) && trimmed[|OPEN|..] == stripped
  {
  }

  lemma TaggedIsExtracted(command: string, symbol: Symbol, rest: string)
    requires Tagged(command, symbol, rest)
    ensures ExtractFromCommand(command) == (symbol, rest)
  {
    var stripped: string :| Trim(command) == OPEN + stripped && TagText(stripped, symbol, rest);
    TagTextParses(stripped, symbol, rest);
    Unprefixed(Trim(command), stripped);
  }

  /** The parser either finds a tag of the grammar or returns the command unchanged as unclassified. */
  lemma ExtractMeaning(command: string)
    ensures var (symbol, rest) := ExtractFromCommand(command);
            || Tagged(command, symbol, rest)
            || (symbol == CritUnclassified && rest == command && forall s, r :: !Tagged(command, s, r))
  {
    if s, r :| Tagged(command, s, r) {
      TaggedIsExtracted(command, s, r);
    } else {
      UntaggedIsUnchanged(command);
    }
  }

  lemma UntaggedIsUnchanged(command: string)
    requires forall s, r :: !Tagged(command, s, r)
    ensures ExtractFromCommand(command) == (CritUnclassified, command)
  {
    var trimmed := Trim(command);
    if StartsWith(trimmed, OPEN) {
      var stripped := trimmed[|OPEN|..];
      assert trimmed == OPEN + stripped;
      var parsed := ParseTag(stripped);
      if parsed.Some? {
        ParsedIsTagText(stripped);
      }
      assert parsed.Some? ==> Tagged(command, parsed.value.0, parsed.value.1);
    }
  }

  function TagBody(trimmed: string): string {
    if trimmed == "" then "" else " " + trimmed
  }

  lemma PrintedTag(name: string, trimmed: string)
    requires Trimmed(trimmed)
    ensures Trim(TagBody(trimmed)) == trimmed
    ensures var text := OPEN + (name + CLOSE + TagBody(trimmed)); Trim(text) == text
  {
    var text := OPEN + (name + CLOSE + TagBody(trimmed));
    assert text[0] == '[';
    assert text[|text| - 1] == if trimmed == "" then ']' else trimmed[|trimmed| - 1];
    TrimOfTrimmed(text);
    TrimIs(if trimmed == "" then "" else " ", trimmed, "");
    assert (if trimmed == "" then "" else " ") + trimmed + "" == TagBody(trimmed);
  }

  lemma WithTagIs(symbol: Symbol, command: string)
    ensures WithTag(symbol, command) == OPEN + (symbol.LiteralName() + CLOSE + TagBody(Trim(command)))
  {
    var name, trimmed := symbol.LiteralName(), Trim(command);
    assert OPEN + name + CLOSE + " " + trimmed == OPEN + (name + CLOSE + (" " + trimmed));
    assert OPEN + name + CLOSE == OPEN + (name + CLOSE + "");
  }

  /** Reading back a printed tag gives the symbol and the trimmed text, whatever the text contains. */
  lemma TagRoundTrip(symbol: Symbol, command: string)
    ensures ExtractFromCommand(WithTag(symbol, command)) == (symbol, Trim(command))
  {
    var name, trimmed := symbol.LiteralName(), Trim(command);
    var stripped := name + CLOSE + TagBody(trimmed);
    TrimTwice(command);
    PrintedTag(name, trimmed);
    WithTagIs(symbol, command);
    assert TagText(stripped, symbol, trimmed) by {
      NameCharacters(symbol);
      TrimOfTrimmed(name);
    }
    TaggedIsExtracted(WithTag(symbol, command), symbol, trimmed);
  }

  /** The safety lock trims a command before parsing it; that never changes the symbol found. */
  lemma ExtractIgnoresSurroundings(command: string)
    ensures ExtractFromCommand(Trim(command)).0 == ExtractFromCommand(command).0
    ensures ExtractFromCommand(command).0 != CritUnclassified ==>
              ExtractFromCommand(Trim(command)) == ExtractFromCommand(command)
  {
    TrimTwice(command);
  }

  /** A symbol other than the fallback was really written as a tag. */
  lemma ClassifiedIsTagged(command: string)
    requires ExtractFromCommand(command).0 != CritUnclassified
    ensures StartsWith(TrimStart(command), OPEN) && !Blank(command)
  {
    BlankTrimsAway(command);
    var trail := TrimEndSplits(TrimStart(command));
  }
}
