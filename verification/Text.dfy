/** The string operations the bridge uses, on sequences of Unicode scalar values. */
module Text {
  import opened Wrappers

  /** The White_Space property of Unicode. */
  predicate IsWhitespace(c: char) {
    || '\t' <= c <= '\r'
    || c == ' '
    || c == '\U{85}'
    || c == '\U{A0}'
    || c == '\U{1680}'
    || '\U{2000}' <= c <= '\U{200A}'
    || c == '\U{2028}'
    || c == '\U{2029}'
    || c == '\U{202F}'
    || c == '\U{205F}'
    || c == '\U{3000}'
  }

  predicate Blank(s: string) {
    forall i | 0 <= i < |s| :: IsWhitespace(s[i])
  }

  function TrimStart(s: string): string {
    if s != "" && IsWhitespace(s[0]) then TrimStart(s[1..]) else s
  }

  function TrimEnd(s: string): string {
    if s != "" && IsWhitespace(s[|s| - 1]) then TrimEnd(s[..|s| - 1]) else s
  }

  function Trim(s: string): string {
    TrimEnd(TrimStart(s))
  }

  /** Neither end is white space. */
  predicate Trimmed(s: string) {
    s != "" ==> !IsWhitespace(s[0]) && !IsWhitespace(s[|s| - 1])
  }

  lemma {:induction false} TrimStartSkips(lead: string, s: string)
    requires Blank(lead)
    ensures TrimStart(lead + s) == TrimStart(s)
  {
    if lead == "" {
      assert lead + s == s;
    } else {
      assert (lead + s)[1..] == lead[1..] + s;
      TrimStartSkips(lead[1..], s);
    }
  }

  lemma {:induction false} TrimEndSkips(s: string, trail: string)
    requires Blank(trail)
    ensures TrimEnd(s + trail) == TrimEnd(s)
  {
    if trail == "" {
      assert s + trail == s;
    } else {
      var n := |trail| - 1;
      assert (s + trail)[..|s + trail| - 1] == s + trail[..n];
      TrimEndSkips(s, trail[..n]);
    }
  }

  /** White space around trimmed text is exactly what `Trim` removes. */
  lemma TrimIs(lead: string, s: string, trail: string)
    requires Blank(lead) && Trimmed(s) && Blank(trail)
    ensures Trim(lead + s + trail) == s
  {
    assert lead + s + trail == lead + (s + trail);
    TrimStartSkips(lead, s + trail);
    if s == "" {
      assert s + trail == trail + "";
      TrimStartSkips(trail, "");
    } else {
      TrimEndSkips(s, trail);
    }
  }

  lemma {:induction false} TrimStartSplits(s: string) returns (lead: string)
    ensures Blank(lead) && s == lead + TrimStart(s)
    ensures TrimStart(s) != "" ==> !IsWhitespace(TrimStart(s)[0])
  {
    if s != "" && IsWhitespace(s[0]) {
      var rest := TrimStartSplits(s[1..]);
      lead := [s[0]] + rest;
    } else {
      lead := "";
    }
  }

  lemma {:induction false} TrimEndSplits(s: string) returns (trail: string)
    ensures Blank(trail) && s == TrimEnd(s) + trail
    ensures TrimEnd(s) != "" ==> !IsWhitespace(TrimEnd(s)[|TrimEnd(s)| - 1])
  {
    if s != "" && IsWhitespace(s[|s| - 1]) {
      var rest := TrimEndSplits(s[..|s| - 1]);
      trail := rest + [s[|s| - 1]];
    } else {
      trail := "";
    }
  }

  lemma TrimSplits(s: string) returns (lead: string, trail: string)
    ensures Blank(lead) && Blank(trail) && Trimmed(Trim(s))
    ensures s == lead + Trim(s) + trail
  {
    lead := TrimStartSplits(s);
    trail := TrimEndSplits(TrimStart(s));
    assert TrimStart(s) == Trim(s) + trail;
    if Trim(s) != "" {
      assert TrimStart(s)[0] == Trim(s)[0];
    }
    assert s == lead + (Trim(s) + trail);
  }

  lemma TrimOfTrimmed(s: string)
    requires Trimmed(s)
    ensures Trim(s) == s
  {
    TrimIs("", s, "");
    assert "" + s + "" == s;
  }

  lemma TrimTwice(s: string)
    ensures Trimmed(Trim(s)) && Trim(Trim(s)) == Trim(s)
  {
    var _, _ := TrimSplits(s);
    TrimOfTrimmed(Trim(s));
  }

  lemma BlankTrimsAway(s: string)
    ensures Blank(s) <==> Trim(s) == ""
  {
    var lead, trail := TrimSplits(s);
    if Blank(s) {
      TrimIs(s, "", "");
      assert s + "" + "" == s;
    }
  }

  predicate StartsWith(s: string, prefix: string) {
    prefix <= s
  }

  /** `sub` occurs in `s` at `i`. */
  predicate OccursAt(s: string, sub: string, i: int) {
    0 <= i <= |s| - |sub| && s[i..i + |sub|] == sub
  }

  /** The first occurrence, as `str::find` returns it. */
  function Find(s: string, sub: string, from: nat := 0): (r: Option<nat>)
    requires from <= |s|
    ensures r.Some? ==> from <= r.value && OccursAt(s, sub, r.value)
    ensures forall j | from <= j && (r.Some? ==> j < r.value) :: !OccursAt(s, sub, j)
    decreases |s| - from
  {
    if from + |sub| > |s| then None
    else if s[from..from + |sub|] == sub then Some(from)
    else if from == |s| then None
    else Find(s, sub, from + 1)
  }

  predicate Contains(s: string, sub: string) {
    exists i | 0 <= i <= |s| - |sub| :: OccursAt(s, sub, i)
  }

  function ToAsciiLowercase(s: string): string {
    seq(|s|, i requires 0 <= i < |s| =>
      if 'A' <= s[i] <= 'Z' then (s[i] as int - 'A' as int + 'a' as int) as char else s[i])
  }

  // ---- Laws ----

  /** The 25 code points that Unicode gives the White_Space property. */
  const WHITE_SPACE: set<char> := {
    '\U{0009}', '\U{000A}', '\U{000B}', '\U{000C}', '\U{000D}', '\U{0020}', '\U{0085}', '\U{00A0}', '\U{1680}',
    '\U{2000}', '\U{2001}', '\U{2002}', '\U{2003}', '\U{2004}', '\U{2005}', '\U{2006}', '\U{2007}', '\U{2008}',
    '\U{2009}', '\U{200A}', '\U{2028}', '\U{2029}', '\U{202F}', '\U{205F}', '\U{3000}'}

  lemma WhiteSpaceIs(c: char)
    ensures IsWhitespace(c) <==> c in WHITE_SPACE
  {
  }

  predicate Upper(c: char) {
    'A' <= c <= 'Z'
  }

  /** The same character, or the two cases of one ASCII letter. */
  predicate SameLetter(a: char, b: char) {
    || a == b
    || (Upper(a) && b as int == a as int + 32)
    || (Upper(b) && a as int == b as int + 32)
  }

  /** Equal up to ASCII case. */
  predicate SameText(a: string, b: string) {
    |a| == |b| && forall i | 0 <= i < |a| :: SameLetter(a[i], b[i])
  }

  predicate MentionedAt(text: string, sub: string, i: int) {
    0 <= i <= |text| - |sub| && forall j | 0 <= j < |sub| :: SameLetter(text[i + j], sub[j])
  }

  /** The text contains `sub` up to ASCII case. */
  predicate Mentions(text: string, sub: string) {
    exists i | 0 <= i <= |text| - |sub| :: MentionedAt(text, sub, i)
  }

  predicate Lowercase(s: string) {
    forall i | 0 <= i < |s| :: !Upper(s[i])
  }

  lemma LoweredLetter(s: string, i: nat, c: char)
    requires i < |s|
    ensures !Upper(ToAsciiLowercase(s)[i])
    ensures !Upper(c) ==> (ToAsciiLowercase(s)[i] == c <==> SameLetter(s[i], c))
  {
  }

  /** Two texts become equal in lower case exactly when they are equal up to ASCII case. */
  lemma LowercaseForgetsCase(a: string, b: string)
    ensures ToAsciiLowercase(a) == ToAsciiLowercase(b) <==> SameText(a, b)
  {
    if |a| == |b| {
      assert forall i | 0 <= i < |a| :: ToAsciiLowercase(a)[i] == ToAsciiLowercase(b)[i] <==> SameLetter(a[i], b[i]);
    }
  }

  /** What a lower-case text contains is what the text mentions. */
  lemma LowercaseContains(text: string, sub: string)
    requires Lowercase(sub)
    ensures Contains(ToAsciiLowercase(text), sub) <==> Mentions(text, sub)
  {
    var lower := ToAsciiLowercase(text);
    forall i | 0 <= i <= |text| - |sub|
      ensures OccursAt(lower, sub, i) <==> MentionedAt(text, sub, i)
    {
      forall j | 0 <= j < |sub|
        ensures lower[i..i + |sub|][j] == sub[j] <==> SameLetter(text[i + j], sub[j])
      {
        LoweredLetter(text, i + j, sub[j]);
      }
    }
  }

  /** A pattern with a capital letter occurs in no lower-case text. */
  lemma CapitalsNeverOccur(text: string, sub: string)
    requires !Lowercase(sub)
    ensures !Contains(ToAsciiLowercase(text), sub)
  {
    var lower := ToAsciiLowercase(text);
    var j: nat :| j < |sub| && Upper(sub[j]);
    forall i | 0 <= i <= |lower| - |sub|
      ensures !OccursAt(lower, sub, i)
    {
      LoweredLetter(text, i + j, sub[j]);
      assert lower[i..i + |sub|][j] == lower[i + j];
    }
  }

  lemma MentionedInside(lead: string, text: string, trail: string, sub: string, i: int)
    requires Blank(lead) && Blank(trail) && sub != "" && Trimmed(sub)
    requires MentionedAt(lead + text + trail, sub, i)
    ensures MentionedAt(text, sub, i - |lead|)
  {
    var all := lead + text + trail;
    assert SameLetter(all[i], sub[0]);
    assert SameLetter(all[i + (|sub| - 1)], sub[|sub| - 1]);
    assert |lead| <= i && i + |sub| <= |lead| + |text|;
    forall j | 0 <= j < |sub|
      ensures SameLetter(text[i - |lead| + j], sub[j])
    {
      assert all[i + j] == text[i - |lead| + j];
    }
  }

  /** Trimming removes no mention of a trimmed pattern. */
  lemma TrimKeepsMentions(text: string, sub: string)
    requires sub != "" && Trimmed(sub)
    ensures Mentions(Trim(text), sub) <==> Mentions(text, sub)
  {
    var lead, trail := TrimSplits(text);
    var inner := Trim(text);
    if i :| 0 <= i <= |text| - |sub| && MentionedAt(text, sub, i) {
      MentionedInside(lead, inner, trail, sub, i);
    }
    if i :| 0 <= i <= |inner| - |sub| && MentionedAt(inner, sub, i) {
      forall j | 0 <= j < |sub|
        ensures SameLetter(text[|lead| + i + j], sub[j])
      {
        assert text[|lead| + i + j] == inner[i + j];
      }
      assert MentionedAt(text, sub, |lead| + i);
    }
  }
}
