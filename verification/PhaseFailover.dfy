/**
 Failure classes, their configuration tokens, the retry decision and the
 bounded list of diagnostic lines.
 */
module PhaseFailover {
  import opened Common
  import opened TextLines

  datatype FailureKind =
    | TransientRunner
    | ProviderExhaustion(reason: string)
    | TargetUnavailable
    | UnknownFailure

  function FailureToken(kind: FailureKind): string {
    match kind
    case TransientRunner => "transient"
    case ProviderExhaustion(_) => "provider_exhaustion"
    case TargetUnavailable => "target_unavailable"
    case UnknownFailure => "unknown"
  }

  predicate ShouldFailover(kind: FailureKind) {
    kind.ProviderExhaustion? || kind.TargetUnavailable?
  }

  function RetryDecision(token: string, retryOn: seq<string>, noRetryOn: seq<string>, isTransient: bool): bool {
    if token in noRetryOn then false
    else if retryOn != [] then token in retryOn
    else isTransient
  }

  predicate ConfiguredRetry(kind: FailureKind, retryOn: seq<string>, noRetryOn: seq<string>) {
    RetryDecision(FailureToken(kind), retryOn, noRetryOn, kind.TransientRunner?)
  }

  // ---- diagnostic lines ----

  const MAX_LINE_CHARS: nat := 320
  const MAX_LINES: nat := 24

  function Spaced(s: string): (t: string)
    ensures |t| == |s|
  {
    seq(|s|, i requires 0 <= i < |s| => if s[i] == '\n' then ' ' else s[i])
  }

  /** Trimmed, on one line, at most 320 characters. */
  function Normalized(text: string): string {
    var line := Spaced(Trim(text));
    if |line| > MAX_LINE_CHARS then line[..MAX_LINE_CHARS] else line
  }

  /** A normalized line is short and on one line, follows the trimmed text, and is empty only for blank texts. */
  lemma NormalizedIs(text: string)
    ensures var line, trimmed := Normalized(text), Trim(text);
            && |line| == (if |trimmed| > 320 then 320 else |trimmed|)
            && forall i :: 0 <= i < |line| ==> line[i] != '\n' && (line[i] == trimmed[i] || trimmed[i] == '\n')
  {
  }

  /** The normalized lines of texts, without the empty ones. */
  function DiagnosticLines(texts: seq<string>): seq<string> {
    if texts == [] then []
    else
      var line := Normalized(texts[|texts| - 1]);
      DiagnosticLines(texts[..|texts| - 1]) + (if line == "" then [] else [line])
  }

  function LastLines(lines: seq<string>): seq<string> {
    if |lines| > MAX_LINES then lines[|lines| - MAX_LINES..] else lines
  }

  /** One more text: what the bounded list does to its last lines. */
  function Pushed(lines: seq<string>, text: string): seq<string> {
    var line := Normalized(text);
    if line == "" then lines
    else (if |lines| >= MAX_LINES then lines[1..] else lines) + [line]
  }

  lemma LastPush(lines: seq<string>, line: string)
    ensures LastLines(lines + [line]) ==
            (if |LastLines(lines)| >= MAX_LINES then LastLines(lines)[1..] else LastLines(lines)) + [line]
  {
    if |lines| >= MAX_LINES {
      var n := |lines| - MAX_LINES;
      assert (lines + [line])[n + 1..] == lines[n + 1..] + [line];
      assert LastLines(lines) == lines[n..];
      assert lines[n..][1..] == lines[n + 1..];
    }
  }

  lemma PushedIsLast(texts: seq<string>, text: string)
    ensures Pushed(LastLines(DiagnosticLines(texts)), text) == LastLines(DiagnosticLines(texts + [text]))
  {
    LinesPush(texts, text);
    LastPush(DiagnosticLines(texts), Normalized(text));
  }

  lemma LinesPush(texts: seq<string>, text: string)
    ensures DiagnosticLines(texts + [text]) ==
            if Normalized(text) == "" then DiagnosticLines(texts) else DiagnosticLines(texts) + [Normalized(text)]
  {
    assert (texts + [text])[..|texts|] == texts;
  }

  method NormalizeLine(text: string) returns (line: string)
    ensures line == Normalized(text)
  {
    line := Spaced(Trim(text));
    if |line| > MAX_LINE_CHARS {
      line := line[..MAX_LINE_CHARS];
    }
  }

  /** The bounded list of recent lines. */
  class Diagnostics {
    var lines: seq<string>
    ghost var texts: seq<string>

    constructor ()
      ensures Valid() && texts == []
    {
      lines := [];
      texts := [];
    }

    /** It holds the last 24 non-empty normalized lines of what was pushed. */
    ghost predicate Valid()
      reads this
    {
      lines == LastLines(DiagnosticLines(texts))
    }

    method PushPhaseDiagnosticLine(text: string)
      requires Valid()
      modifies this
      ensures Valid() && texts == old(texts) + [text]
      ensures lines == Pushed(old(lines), text)
    {
      PushedIsLast(texts, text);
      texts := texts + [text];
      var normalized := NormalizeLine(text);
      if normalized != "" {
        var kept := lines;
        if |kept| >= MAX_LINES { kept := kept[1..]; }
        lines := kept + [normalized];
      }
    }

    method Summarize() returns (summary: Option<string>)
      ensures summary == Summary(lines)
    {
      if lines == [] { return None; }
      var joined := lines[0];
      for i := 1 to |lines|
        invariant joined == Joined(lines[..i])
      {
        assert lines[..i + 1][..i] == lines[..i];
        joined := joined + " | " + lines[i];
      }
      assert lines[..|lines|] == lines;
      summary := Some(joined);
    }
  }

  function Joined(lines: seq<string>): string {
    if lines == [] then ""
    else if |lines| == 1 then lines[0]
    else Joined(lines[..|lines| - 1]) + " | " + lines[|lines| - 1]
  }

  function Summary(lines: seq<string>): Option<string> {
    if lines == [] then None else Some(Joined(lines))
  }

  /** The lines are joined in order, with a bar between any two. */
  lemma {:induction false} JoinedConcat(a: seq<string>, b: seq<string>)
    requires a != [] && b != []
    ensures Joined(a + b) == Joined(a) + " | " + Joined(b)
  {
    var front, last := b[..|b| - 1], b[|b| - 1];
    assert (a + b)[..|a + b| - 1] == a + front && (a + b)[|a + b| - 1] == last;
    if |b| == 1 {
      assert a + front == a;
    } else {
      JoinedConcat(a, front);
      var x, y, z := Joined(a) + " | ", Joined(front), " | " + last;
      assert (x + y) + z == x + (y + z);
    }
  }
}
