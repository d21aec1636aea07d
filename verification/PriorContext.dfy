/**
 The text that tells a phase what earlier phases produced, and its truncation.
 Texts are ASCII, so that lengths in bytes are lengths in characters.
 */
module PriorContext {
  import opened Common
  import opened PhaseOutput
  import opened TextLines

  const HEADER := "## Prior Phase Results\n"
  const NOTICE := "(earlier phases truncated for brevity)\n\n"
  const MAX_CHARS: nat := 8000
  const NOTICE_RESERVE: nat := 30

  lemma FixedLengths()
    ensures |HEADER| == 23 && |NOTICE| == 40
    ensures !IsSpace(NOTICE[37]) && !IsSpace(HEADER[21])
  {
  }

  /** One line of a section, when there is something to say. */
  function Labelled(name: string, value: Option<string>): string {
    match value
    case Some(v) => "\n" + name + ": " + v
    case None => ""
  }

  function EvidenceLines(evidence: seq<Evidence>): string {
    if evidence == [] then ""
    else
      var e := evidence[0];
      "\n- [" + Lower(e.kind) + "] " + e.description
      + (match e.filePath case Some(path) => " (" + path + ")" case None => "") + EvidenceLines(evidence[1..])
  }

  function ListLines(items: seq<string>): string {
    if items == [] then "" else "\n- " + items[0] + ListLines(items[1..])
  }

  /** The section of one output; `shown` writes a confidence with one decimal. */
  function Section(o: PersistedOutput, shown: real -> string): (s: string)
    ensures |s| >= 4 && s[0] == '#'
  {
    "### " + (o.phaseId + " (completed)" + Labelled("Verdict", o.verdict)
              + Labelled("Confidence", match o.confidence case Some(c) => Some(shown(c)) case None => None)
              + Labelled("Reasoning", o.reason) + Labelled("Commit", o.commitMessage)
              + (if o.evidence == [] then "" else "\nEvidence:" + EvidenceLines(o.evidence))
              + (if o.guardrailViolations == [] then ""
                 else "\nGuardrail violations:" + ListLines(o.guardrailViolations)))
  }

  function Sections(outputs: seq<PersistedOutput>, shown: real -> string): (sections: seq<string>)
    ensures |sections| == |outputs| && NonEmpty(sections)
  {
    seq(|outputs|, i requires 0 <= i < |outputs| => Section(outputs[i], shown))
  }

  predicate NonEmpty(sections: seq<string>) {
    forall i :: 0 <= i < |sections| ==> |sections[i]| >= 1 && sections[i][0] == '#'
  }

  // ---- the latest k sections ----

  /** Joined by blank lines, in order. */
  function Joined(sections: seq<string>, k: nat): string
    requires k <= |sections|
  {
    if k == 0 then ""
    else sections[|sections| - k] + (if k == 1 then "" else "\n\n" + Joined(sections, k - 1))
  }

  /** One after the other with a blank line after each, the latest first. */
  function LatestFirst(sections: seq<string>, k: nat): (text: string)
    requires k <= |sections|
    ensures |text| == Cost(sections, k)
  {
    if k == 0 then "" else LatestFirst(sections, k - 1) + (sections[|sections| - k] + "\n\n")
  }

  /** What they take with the blank line after each. */
  function Cost(sections: seq<string>, k: nat): (n: nat)
    requires k <= |sections|
  {
    if k == 0 then 0 else Cost(sections, k - 1) + |sections[|sections| - k]| + 2
  }

  lemma {:induction false} JoinedLength(sections: seq<string>, k: nat)
    requires 1 <= k <= |sections|
    ensures |Joined(sections, k)| + 2 == Cost(sections, k)
  {
    if k > 1 { JoinedLength(sections, k - 1); }
  }

  lemma {:induction false} CostMonotone(sections: seq<string>, k: nat, m: nat)
    requires k <= m <= |sections|
    ensures Cost(sections, k) <= Cost(sections, m)
  {
    if k < m { CostMonotone(sections, k, m - 1); }
  }

  // ---- the reference: the longest suffix that fits ----

  const ALLOWANCE: nat := 7949

  /** The most of the latest sections that fit, all together, into the allowance. */
  function Fitting(sections: seq<string>, k: nat): (n: nat)
    requires k <= |sections|
    ensures k <= n <= |sections|
    decreases |sections| - k
  {
    if k < |sections| && Cost(sections, k + 1) <= ALLOWANCE then Fitting(sections, k + 1) else k
  }

  function Kept(sections: seq<string>): nat {
    Fitting(sections, 0)
  }

  function Whole(sections: seq<string>): string {
    HEADER + Joined(sections, |sections|)
  }

  function Formatted(sections: seq<string>): string {
    if sections == [] then ""
    else if |Whole(sections)| > MAX_CHARS then TrimEnd(HEADER + NOTICE + LatestFirst(sections, Kept(sections)))
    else Whole(sections)
  }

  lemma {:induction false} FittingIsLongest(sections: seq<string>, k: nat)
    requires k <= |sections| && Cost(sections, k) <= ALLOWANCE
    ensures var n := Fitting(sections, k);
            Cost(sections, n) <= ALLOWANCE && forall m :: n < m <= |sections| ==> Cost(sections, m) > ALLOWANCE
    decreases |sections| - k
  {
    if k < |sections| {
      if Cost(sections, k + 1) <= ALLOWANCE {
        FittingIsLongest(sections, k + 1);
      } else {
        forall m | k < m <= |sections| ensures Cost(sections, m) > ALLOWANCE {
          CostMonotone(sections, k + 1, m);
        }
      }
    }
  }

  lemma WholeLength(sections: seq<string>)
    requires sections != []
    ensures |Whole(sections)| == 21 + Cost(sections, |sections|)
  {
    FixedLengths();
    JoinedLength(sections, |sections|);
  }

  predicate TooLong(sections: seq<string>) {
    NonEmpty(sections) && sections != [] && |Whole(sections)| > MAX_CHARS
  }

  lemma TooLongCosts(sections: seq<string>)
    requires TooLong(sections)
    ensures sections != [] && Cost(sections, |sections|) > ALLOWANCE
  {
    WholeLength(sections);
  }

  /** When the text is too long not all sections fit. */
  lemma TooLongCutsOne(sections: seq<string>)
    requires TooLong(sections)
    ensures Kept(sections) < |sections| && Cost(sections, Kept(sections)) <= ALLOWANCE
    ensures forall m :: Kept(sections) < m <= |sections| ==> Cost(sections, m) > ALLOWANCE
  {
    TooLongCosts(sections);
    NotAllFit(sections);
  }

  lemma NotAllFit(sections: seq<string>)
    requires Cost(sections, |sections|) > ALLOWANCE
    ensures Kept(sections) < |sections| && Cost(sections, Kept(sections)) <= ALLOWANCE
    ensures forall m :: Kept(sections) < m <= |sections| ==> Cost(sections, m) > ALLOWANCE
  {
    FittingIsLongest(sections, 0);
  }

  // ---- the loop ----

  /** What is left of the greedy budget after sections of some cost. */
  function Budget(cost: nat): nat {
    if cost < ALLOWANCE - 2 then ALLOWANCE - 2 - cost else 0
  }

  lemma OneMoreFits(sections: seq<string>, k: nat)
    requires NonEmpty(sections) && k < |sections| && Cost(sections, k) <= ALLOWANCE
    ensures |sections[|sections| - k - 1]| <= Budget(Cost(sections, k)) <==> Cost(sections, k + 1) <= ALLOWANCE
  {
  }

  method TruncateSections(sections: seq<string>) returns (text: string)
    requires TooLong(sections)
    ensures text == Formatted(sections)
  {
    FixedLengths();
    TooLongCutsOne(sections);
    text := HEADER;
    var budget := MAX_CHARS - |text| - NOTICE_RESERVE;
    var k := 0;
    while k < |sections|
      invariant 0 <= k <= Kept(sections) && Fitting(sections, k) == Kept(sections)
      invariant Cost(sections, k) <= ALLOWANCE && budget == Budget(Cost(sections, k))
      invariant text == HEADER + LatestFirst(sections, k)
    {
      OneMoreFits(sections, k);
      var section := sections[|sections| - k - 1];
      if |section| <= budget {
        Assoc(HEADER, LatestFirst(sections, k), section + "\n\n");
        text := text + (section + "\n\n");
        budget := if budget > |section| + 2 then budget - (|section| + 2) else 0;
        k := k + 1;
      } else {
        text := Insert(text, NOTICE);
        break;
      }
    }
    text := TrimEnd(text);
  }

  /** Inserts after the header. */
  method Insert(text: string, notice: string) returns (inserted: string)
    requires HEADER <= text
    ensures inserted == HEADER + notice + text[|HEADER|..]
  {
    inserted := text[..|HEADER|] + notice + text[|HEADER|..];
  }

  method FormatPriorPhaseOutputs(outputs: seq<PersistedOutput>, shown: real -> string) returns (text: string)
    ensures text == Formatted(Sections(outputs, shown))
  {
    if outputs == [] { return ""; }
    var sections := Sections(outputs, shown);
    text := HEADER + Joined(sections, |sections|);
    if |text| > MAX_CHARS {
      text := TruncateSections(sections);
    }
  }

  // ---- what truncation guarantees ----

  lemma TrimEndKeeps(s: string, n: nat)
    requires 1 <= n <= |s| && !IsSpace(s[n - 1])
    ensures |TrimEnd(s)| >= n && s[..n] <= TrimEnd(s)
  {
  }

  lemma TrimEndDrops(s: string)
    requires |s| >= 2 && s[|s| - 1] == '\n' && s[|s| - 2] == '\n'
    ensures |TrimEnd(s)| <= |s| - 2
  {
    var t := TrimEnd(s);
    assert t != "" ==> t[|t| - 1] == s[|t| - 1];
  }

  lemma NoticeInFront(rest: string)
    ensures HEADER + NOTICE[..38] <= TrimEnd(HEADER + NOTICE + rest)
  {
    FixedLengths();
    var text := HEADER + NOTICE + rest;
    assert text[..61] == HEADER + NOTICE[..38] && text[60] == NOTICE[37];
    TrimEndKeeps(text, 61);
  }

  /** Before trimming the text ends with two line feeds. */
  lemma EndsBlank(sections: seq<string>, k: nat)
    requires k <= |sections|
    ensures var text := HEADER + NOTICE + LatestFirst(sections, k);
            |text| == 63 + Cost(sections, k) && text[|text| - 1] == '\n' && text[|text| - 2] == '\n'
  {
    FixedLengths();
    var body := LatestFirst(sections, k);
    if k == 0 {
      assert HEADER + NOTICE + body == HEADER + NOTICE;
      assert NOTICE[38] == '\n' && NOTICE[39] == '\n';
    } else {
      var last := sections[|sections| - k] + "\n\n";
      assert body[|body| - 1] == last[|last| - 1] && body[|body| - 2] == last[|last| - 2];
    }
  }

  /**
   A truncated text always carries the notice, keeps the longest suffix of
   sections that fits the allowance, which is never all of them, and is at most
   8010 characters long.
   */
  lemma TruncationBounds(sections: seq<string>)
    requires TooLong(sections)
    ensures Kept(sections) < |sections| && Cost(sections, Kept(sections)) <= ALLOWANCE
    ensures forall m :: Kept(sections) < m <= |sections| ==> Cost(sections, m) > ALLOWANCE
    ensures HEADER + NOTICE[..38] <= Formatted(sections) && |Formatted(sections)| <= 8010
  {
    TooLongCutsOne(sections);
    NoticeInFront(LatestFirst(sections, Kept(sections)));
    EndsBlank(sections, Kept(sections));
    TrimEndDrops(HEADER + NOTICE + LatestFirst(sections, Kept(sections)));
  }

  lemma TrimEndAt(s: string, n: nat)
    requires n <= |s| && (n > 0 ==> !IsSpace(s[n - 1])) && forall i :: n <= i < |s| ==> IsSpace(s[i])
    ensures |TrimEnd(s)| == n
  {
    var t := TrimEnd(s);
    if n > 0 { TrimEndKeeps(s, n); }
    assert t != "" ==> t[|t| - 1] == s[|t| - 1];
  }

  /** Trimming stops inside a section, because it starts with a visible character. */
  lemma TrimEndInside(front: string, section: string)
    requires section != "" && section[0] == '#'
    ensures |TrimEnd(front + (section + "\n\n"))| == |front| + |TrimEnd(section)|
  {
    var text, kept := front + (section + "\n\n"), TrimEnd(section);
    TrimEndKeeps(section, 1);
    var n := |front| + |kept|;
    assert text[n - 1] == section[|kept| - 1] == kept[|kept| - 1];
    forall i | n <= i < |text| ensures IsSpace(text[i]) {
      if i < |front| + |section| { assert text[i] == section[i - |front|]; }
    }
    TrimEndAt(text, n);
  }

  lemma NoticeAlone()
    ensures |TrimEnd(HEADER + NOTICE + "")| == 61
  {
    FixedLengths();
    var text := HEADER + NOTICE + "";
    assert NOTICE[38] == '\n' && NOTICE[39] == '\n' && text[60] == NOTICE[37];
    TrimEndAt(text, 61);
  }

  lemma OldestTrimmed(sections: seq<string>, k: nat)
    requires 1 <= k <= |sections| && sections[|sections| - k] != "" && sections[|sections| - k][0] == '#'
    ensures |TrimEnd(HEADER + NOTICE + LatestFirst(sections, k))| ==
            63 + Cost(sections, k - 1) + |TrimEnd(sections[|sections| - k])|
  {
    FixedLengths();
    var front, oldest := LatestFirst(sections, k - 1), sections[|sections| - k];
    Assoc(HEADER + NOTICE, front, oldest + "\n\n");
    TrimEndInside(HEADER + NOTICE + front, oldest);
  }

  /** How long `k` kept sections make the text: the oldest one loses its trailing white space. */
  function TrimmedLength(sections: seq<string>, k: nat): int
    requires k <= |sections|
  {
    if k == 0 then 61 else 61 + Cost(sections, k) - |sections[|sections| - k]| + |TrimEnd(sections[|sections| - k])|
  }

  lemma KeptLength(sections: seq<string>, k: nat)
    requires NonEmpty(sections) && k <= |sections|
    ensures |TrimEnd(HEADER + NOTICE + LatestFirst(sections, k))| == TrimmedLength(sections, k)
  {
    if k == 0 { NoticeAlone(); } else { OldestTrimmed(sections, k); }
  }

  lemma TruncatedLength(sections: seq<string>)
    requires TooLong(sections)
    ensures |Formatted(sections)| == TrimmedLength(sections, Kept(sections))
  {
    KeptLength(sections, Kept(sections));
  }

  /**
   For every list that is truncated: the limit is exceeded exactly when sections
   are kept and they take more than 7939 of it, the trailing white space of the
   oldest one aside.
   */
  lemma ExceedsLimitIff(sections: seq<string>)
    requires TooLong(sections)
    ensures var k := Kept(sections);
            |Formatted(sections)| > MAX_CHARS <==>
            k >= 1 && Cost(sections, k) - |sections[|sections| - k]| + |TrimEnd(sections[|sections| - k])| > 7939
  {
    TruncatedLength(sections);
  }

  /** The output of a phase that says nothing but its name. */
  function Bare(n: nat): PersistedOutput {
    PersistedOutput(seq(n, _ => 'a'), None, None, None, None, [], [], None)
  }

  lemma BareSection(n: nat, shown: real -> string)
    ensures var s := Section(Bare(n), shown);
            |s| == n + 16 && TrimEnd(s) == s
  {
    var s := Section(Bare(n), shown);
    assert |"### "| == 4 && |" (completed)"| == 12;
    assert s[|s| - 1] == ')';
    TrimEndAt(s, |s|);
  }

  /** Two outputs whose text is 8010 characters long, so the bound is met. */
  lemma LimitIsExceeded(shown: real -> string)
    ensures |Formatted(Sections([Bare(14), Bare(7931)], shown))| == 8010
  {
    var sections := Sections([Bare(14), Bare(7931)], shown);
    BareSection(14, shown);
    BareSection(7931, shown);
    assert Cost(sections, 0) == 0 && Cost(sections, 1) == 7949 && Cost(sections, 2) == 7981;
    WholeLength(sections);
    assert Fitting(sections, 1) == 1 && Kept(sections) == 1;
    TruncatedLength(sections);
  }
}
