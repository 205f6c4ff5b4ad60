/** What the irreversibility scan finds, in terms of the text as it was typed. */
module Irreversible {
  import opened Text
  import opened Symbols
  import opened Criteria

  /** A pattern that the scan finds wherever the text mentions it. */
  predicate Plain(marker: string) {
    marker != "" && Trimmed(marker) && Lowercase(marker)
  }

  /** Scanning sees a text up to ASCII case and to white space around it, and nothing else gets lost. */
  lemma ScanSeesText(a: string, b: string)
    ensures Lowered(a) == Lowered(b) <==> SameText(Trim(a), Trim(b))
  {
    LowercaseForgetsCase(Trim(a), Trim(b));
  }

  lemma PlainIsMentioned(text: string, marker: string)
    requires Plain(marker)
    ensures Contains(Lowered(text), marker) <==> Mentions(text, marker)
  {
    LowercaseContains(Trim(text), marker);
    TrimKeepsMentions(text, marker);
  }

  /** A marker typed with a capital letter protects nothing. */
  lemma CapitalMarkersAreDead(text: string, marker: string)
    requires !Lowercase(marker)
    ensures !Contains(Lowered(text), marker)
  {
    CapitalsNeverOccur(Trim(text), marker);
  }

  /** A recursive forced removal of a backup or of a system path. */
  predicate RemovesPath(text: string) {
    && Mentions(text, "rm -rf")
    && (|| Mentions(text, "backup") || Mentions(text, "/var") || Mentions(text, "/home")
        || Mentions(text, "/tmp") || Mentions(text, "/etc") || Mentions(text, "/usr"))
  }

  /** Zeros written over a disk. */
  predicate WipesDisk(text: string) {
    && Mentions(text, "dd") && Mentions(text, "/dev/zero")
    && (Mentions(text, "of=") || Mentions(text, "disk") || Mentions(text, "sd") || Mentions(text, "nvme"))
  }

  lemma ContainsOneOf(text: string, markers: seq<string>, k: nat)
    requires k < |markers| && Plain(markers[k])
    ensures Mentions(text, markers[k]) ==> ContainsAny(Lowered(text), markers)
  {
    PlainIsMentioned(text, markers[k]);
  }

  lemma PathsArePlain()
    ensures Plain("rm -rf") && Plain("backup") && Plain("/var") && Plain("/home") && Plain("/tmp") && Plain("/etc")
            && Plain("/usr")
  {
  }

  lemma TargetsArePlain()
    ensures Plain("dd") && Plain("/dev/zero") && Plain("of=") && Plain("disk") && Plain("sd") && Plain("nvme")
  {
  }

  lemma AnyOfPlain(text: string, markers: seq<string>)
    requires forall k | 0 <= k < |markers| :: Plain(markers[k])
    ensures ContainsAny(Lowered(text), markers) <==> exists k | 0 <= k < |markers| :: Mentions(text, markers[k])
  {
    forall k | 0 <= k < |markers|
      ensures Contains(Lowered(text), markers[k]) <==> Mentions(text, markers[k])
    {
      PlainIsMentioned(text, markers[k]);
    }
    if ContainsAny(Lowered(text), markers) {
      var marker :| marker in markers && Contains(Lowered(text), marker);
      var k: nat :| k < |markers| && markers[k] == marker;
      assert Mentions(text, markers[k]);
    }
    if k: nat :| k < |markers| && Mentions(text, markers[k]) {
      assert markers[k] in markers;
    }
  }

  lemma RemovalRule(text: string)
    ensures var paths := ["backup", "/var", "/home", "/tmp", "/etc", "/usr"];
            (Contains(Lowered(text), "rm -rf") && ContainsAny(Lowered(text), paths)) <==> RemovesPath(text)
  {
    var paths := ["backup", "/var", "/home", "/tmp", "/etc", "/usr"];
    PathsArePlain();
    PlainIsMentioned(text, "rm -rf");
    AnyOfPlain(text, paths);
    assert paths[0] == "backup" && paths[1] == "/var" && paths[2] == "/home" && paths[3] == "/tmp"
           && paths[4] == "/etc" && paths[5] == "/usr";
  }

  lemma WipeRule(text: string)
    ensures var lower, targets := Lowered(text), ["of=", "disk", "sd", "nvme"];
            (Contains(lower, "dd") && Contains(lower, "/dev/zero") && ContainsAny(lower, targets)) <==> WipesDisk(text)
  {
    var targets := ["of=", "disk", "sd", "nvme"];
    TargetsArePlain();
    PlainIsMentioned(text, "dd");
    PlainIsMentioned(text, "/dev/zero");
    AnyOfPlain(text, targets);
    assert targets[0] == "of=" && targets[1] == "disk" && targets[2] == "sd" && targets[3] == "nvme";
  }

  /**
   Irreversibility is reported for a text exactly when it contains a configured marker, removes a
   protected path or wipes a disk; the latter two are judged by what the text mentions as typed.
   */
  lemma IrreversibleExactlyWhen(rx: RegexEngine, cfg: CriteriaConfig, text: string)
    ensures Irreversibility in Hits(rx, cfg, Lowered(text)) <==>
            || (exists marker | marker in cfg.irreversibility :: Contains(Lowered(text), marker))
            || RemovesPath(text)
            || WipesDisk(text)
  {
    HitsMeaning(rx, cfg, Lowered(text));
    RemovalRule(text);
    WipeRule(text);
    assert Hit(rx, cfg, Irreversibility, Lowered(text)) <==> IsIrreversible(cfg, Lowered(text));
  }

  /** A command whose text does what cannot be undone makes its plan non-delegable, whatever its tag says. */
  lemma IrreversiblePlansAreHeld(rx: RegexEngine, cfg: CriteriaConfig, commands: seq<string>, k: nat)
    requires k < |commands|
    requires var text := ExtractFromCommand(commands[k]).1;
             || RemovesPath(text) || WipesDisk(text)
             || exists marker | marker in cfg.irreversibility :: Plain(marker) && Mentions(text, marker)
    ensures Verdict(rx, cfg, commands) == NonDelegablePlan
  {
    var text := ExtractFromCommand(commands[k]).1;
    if marker :| marker in cfg.irreversibility && Plain(marker) && Mentions(text, marker) {
      PlainIsMentioned(text, marker);
    }
    IrreversibleExactlyWhen(rx, cfg, text);
    CleanIs(rx, cfg, commands[k]);
    assert commands[k] in commands;
  }

  lemma FirstMarkersArePlain(k: nat)
    requires k < 6
    ensures Plain(DefaultMarkers()[k])
  {
  }

  lemma MiddleMarkersArePlain(k: nat)
    requires 6 <= k < 12
    ensures Plain(DefaultMarkers()[k])
  {
  }

  lemma LastMarkersArePlain(k: nat)
    requires 12 <= k < |DefaultMarkers()|
    ensures Plain(DefaultMarkers()[k])
  {
  }

  /** Every shipped marker is found wherever a text mentions it. */
  lemma ShippedMarkersArePlain(marker: string)
    requires marker in DefaultMarkers()
    ensures Plain(marker)
  {
    var k: nat :| k < |DefaultMarkers()| && DefaultMarkers()[k] == marker;
    if k < 6 {
      FirstMarkersArePlain(k);
    } else if k < 12 {
      MiddleMarkersArePlain(k);
    } else {
      LastMarkersArePlain(k);
    }
  }
}
