/** Splitting text into items and joining items into text. */
module Lists {
  import opened Text

  /** The position of the first `c`. */
  function IndexOf(s: string, c: char): (i: nat)
    requires c in s
    ensures i < |s| && s[i] == c && c !in s[..i]
  {
    if s[0] == c then 0 else 1 + IndexOf(s[1..], c)
  }

  /** `str::split` on one character: always at least one piece. */
  function Split(s: string, sep: char): seq<string>
    decreases |s|
  {
    if sep !in s then [s]
    else var i := IndexOf(s, sep); [s[..i]] + Split(s[i + 1..], sep)
  }

  function StripReturn(line: string): string {
    if line != "" && line[|line| - 1] == '\r' then line[..|line| - 1] else line
  }

  /** `str::lines`: no empty piece after a final newline, and `\r\n` counts as one line end. */
  function Lines(s: string): seq<string>
    decreases |s|
  {
    if s == "" then []
    else if '\n' !in s then [s]
    else var i := IndexOf(s, '\n'); [StripReturn(s[..i])] + Lines(s[i + 1..])
  }

  function Join(items: seq<string>, sep: string): string {
    if items == [] then ""
    else if |items| == 1 then items[0]
    else items[0] + sep + Join(items[1..], sep)
  }

  /** Trims every piece and drops the empty ones. */
  function Cleaned(pieces: seq<string>): seq<string> {
    if pieces == [] then []
    else (if Trim(pieces[0]) == "" then [] else [Trim(pieces[0])]) + Cleaned(pieces[1..])
  }

  function Items(s: string, sep: char): seq<string> {
    Cleaned(Split(s, sep))
  }

  function LineItems(s: string): seq<string> {
    Cleaned(Lines(s))
  }

  /** An item that survives splitting and cleaning as it is. */
  predicate Clean(item: string, sep: char) {
    item != "" && Trimmed(item) && sep !in item
  }

  predicate AllClean(items: seq<string>, sep: char) {
    forall i | 0 <= i < |items| :: Clean(items[i], sep)
  }

  lemma FirstPiece(piece: string, sep: char, rest: string)
    requires sep !in piece
    ensures Split(piece + [sep] + rest, sep) == [piece] + Split(rest, sep)
    ensures sep == '\n' ==> Lines(piece + [sep] + rest) == [StripReturn(piece)] + Lines(rest)
  {
    var s := piece + [sep] + rest;
    assert s[|piece|] == sep;
    var i := IndexOf(s, sep);
    assert forall j | 0 <= j < |piece| :: s[j] == piece[j];
    assert forall j | 0 <= j < i :: s[..i][j] == s[j];
    assert i == |piece|;
    assert s[..i] == piece && s[i + 1..] == rest;
  }

  lemma StripReturnTrims(line: string)
    ensures Trim(StripReturn(line)) == Trim(line)
  {
    if StripReturn(line) != line {
      var n := |line| - 1;
      var lead, trail := TrimSplits(line[..n]);
      assert line == lead + Trim(line[..n]) + (trail + "\r");
      TrimIs(lead, Trim(line[..n]), trail + "\r");
    }
  }

  lemma CleanedCons(piece: string, rest: seq<string>)
    ensures Cleaned([piece] + rest) == (if Trim(piece) == "" then [] else [Trim(piece)]) + Cleaned(rest)
  {
    assert ([piece] + rest)[1..] == rest;
  }

  lemma LinesCut(s: string)
    requires '\n' in s
    ensures var i := IndexOf(s, '\n'); LineItems(s) == Cleaned([StripReturn(s[..i])] + Lines(s[i + 1..]))
    ensures var i := IndexOf(s, '\n'); Items(s, '\n') == Cleaned([s[..i]] + Split(s[i + 1..], '\n'))
  {
  }

  /** For cleaned items it does not matter which of the two ways of cutting lines is used. */
  lemma {:induction false} LinesAreSplit(s: string)
    ensures LineItems(s) == Items(s, '\n')
    decreases |s|
  {
    if s == "" {
      assert Split(s, '\n') == [""] && Trim("") == "";
      assert Cleaned([""]) == [] + Cleaned([]);
    } else if '\n' in s {
      var i := IndexOf(s, '\n');
      var first, rest := s[..i], s[i + 1..];
      LinesCut(s);
      LinesAreSplit(rest);
      StripReturnTrims(first);
      CleanedCons(StripReturn(first), Lines(rest));
      CleanedCons(first, Split(rest, '\n'));
    }
  }

  lemma TrimKeepsOut(s: string, c: char)
    requires c !in s
    ensures c !in Trim(s)
  {
    var lead, trail := TrimSplits(s);
    assert forall x | x in Trim(s) :: x in lead + Trim(s) + trail;
  }

  /** No piece of a text holds the separator. */
  lemma {:induction false} PiecesLackSeparator(s: string, sep: char)
    ensures forall piece | piece in Split(s, sep) :: sep !in piece
    decreases |s|
  {
    if sep in s {
      PiecesLackSeparator(s[IndexOf(s, sep) + 1..], sep);
    }
  }

  lemma {:induction false} CleanedIsClean(pieces: seq<string>, sep: char)
    requires forall piece | piece in pieces :: sep !in piece
    ensures AllClean(Cleaned(pieces), sep)
  {
    if pieces != [] {
      CleanedIsClean(pieces[1..], sep);
      TrimTwice(pieces[0]);
      TrimKeepsOut(pieces[0], sep);
    }
  }

  lemma JoinCons(first: string, rest: seq<string>, sep: string)
    requires rest != []
    ensures Join([first] + rest, sep) == first + sep + Join(rest, sep)
  {
    assert ([first] + rest)[1..] == rest;
  }

  lemma CutAtFirst(s: string, sep: char) returns (first: string, rest: string)
    requires sep in s
    ensures s == first + [sep] + rest && |rest| < |s| && Split(s, sep) == [first] + Split(rest, sep)
  {
    var i := IndexOf(s, sep);
    first, rest := s[..i], s[i + 1..];
  }

  /** The pieces of a text, joined again, are the text. */
  lemma {:induction false} SplitJoins(s: string, sep: char)
    ensures Split(s, sep) != [] && Join(Split(s, sep), [sep]) == s
    decreases |s|
  {
    if sep in s {
      var first, rest := CutAtFirst(s, sep);
      SplitJoins(rest, sep);
      JoinCons(first, Split(rest, sep), [sep]);
    }
  }

  lemma ItemsAreClean(s: string, sep: char)
    ensures AllClean(Items(s, sep), sep)
  {
    PiecesLackSeparator(s, sep);
    CleanedIsClean(Split(s, sep), sep);
  }

  lemma TrimSkipsFirst(pad: string, s: string)
    requires Blank(pad)
    ensures Trim(pad + s) == Trim(s)
  {
    var lead, trail := TrimSplits(s);
    assert pad + s == (pad + lead) + Trim(s) + trail;
    TrimIs(pad + lead, Trim(s), trail);
  }

  /** Blank padding at the front of a text changes no item. */
  lemma ItemsSkipPadding(pad: string, s: string, sep: char)
    requires Blank(pad) && sep !in pad
    ensures Items(pad + s, sep) == Items(s, sep)
  {
    if sep in s {
      var i := IndexOf(s, sep);
      var first, rest := s[..i], s[i + 1..];
      assert s == first + [sep] + rest && pad + s == (pad + first) + [sep] + rest;
      FirstPiece(first, sep, rest);
      FirstPiece(pad + first, sep, rest);
      TrimSkipsFirst(pad, first);
      assert ([first] + Split(rest, sep))[1..] == ([pad + first] + Split(rest, sep))[1..];
    } else {
      TrimSkipsFirst(pad, s);
      assert [s][1..] == [pad + s][1..];
    }
  }

  /** Joining clean items and splitting again gives the items back; the separator may be padded. */
  lemma {:induction false} ItemsOfJoin(items: seq<string>, sep: char, pad: string)
    requires AllClean(items, sep) && Blank(pad) && sep !in pad
    ensures Items(Join(items, [sep] + pad), sep) == items
  {
    if items == [] {
      assert Split("", sep) == [""] && Trim("") == "";
      assert Cleaned([""]) == [] + Cleaned([]);
    } else if |items| == 1 {
      TrimOfTrimmed(items[0]);
      assert Cleaned([items[0]]) == [items[0]] + Cleaned([]);
    } else {
      var rest := Join(items[1..], [sep] + pad);
      ItemsOfJoin(items[1..], sep, pad);
      assert items[0] + ([sep] + pad) + rest == items[0] + [sep] + (pad + rest);
      FirstPiece(items[0], sep, pad + rest);
      ItemsSkipPadding(pad, rest, sep);
      TrimOfTrimmed(items[0]);
      assert ([items[0]] + Split(pad + rest, sep))[1..] == Split(pad + rest, sep);
    }
  }
}
