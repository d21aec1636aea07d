/** Planning the ordered list of (tool, model) targets of a phase. */
module PhaseTargets {
  import opened Common
  import opened TextLines

  datatype Target = Target(tool: string, model: string)

  /** Model and tool naming, and the models suppressed for the phase. */
  datatype Catalog = Catalog(
    canonicalModel: string -> string,
    normalizeTool: string -> string,
    toolFor: string -> string,
    suppressed: string -> bool)

  /** The resolved primary target, the configured fallbacks and the routed ones. */
  datatype Request = Request(
    primary: Target,
    fallbackModels: seq<string>,
    fallbackTools: seq<string>,
    routedModels: seq<string>)

  predicate SameModel(a: string, b: string) {
    Lower(a) == Lower(b)
  }

  function Configured(c: Catalog, models: seq<string>): seq<string> {
    if models == [] then []
    else (if c.canonicalModel(models[0]) == "" then [] else [c.canonicalModel(models[0])]) + Configured(c, models[1..])
  }

  function Candidates(c: Catalog, r: Request): (models: seq<string>)
    ensures |models| >= 1 && models[0] == r.primary.model
  {
    [r.primary.model] + Configured(c, r.fallbackModels) + r.routedModels
  }

  // ---- the reference: first occurrences that are not suppressed ----

  predicate FirstOccurrence(models: seq<string>, i: nat)
    requires i < |models|
  {
    forall j :: 0 <= j < i ==> !SameModel(models[j], models[i])
  }

  function Kept(c: Catalog, models: seq<string>, n: nat): seq<string>
    requires n <= |models|
  {
    if n == 0 then []
    else Kept(c, models, n - 1)
         + (if FirstOccurrence(models, n - 1) && !c.suppressed(models[n - 1]) then [models[n - 1]] else [])
  }

  /** The tool of the j-th fallback target that is emitted. */
  function FallbackTool(c: Catalog, r: Request, j: nat, model: string): string {
    c.normalizeTool(
      if j < |r.fallbackTools| && Trim(r.fallbackTools[j]) != "" then c.normalizeTool(Trim(r.fallbackTools[j]))
      else c.toolFor(model))
  }

  /** How many of the targets are the primary one. */
  function Primaries(c: Catalog, r: Request): nat {
    if c.suppressed(r.primary.model) then 0 else 1
  }

  function PlannedAt(c: Catalog, r: Request, models: seq<string>, k: nat): Target
    requires k < |models|
  {
    if k < Primaries(c, r) then r.primary
    else Target(FallbackTool(c, r, k - Primaries(c, r), models[k]), models[k])
  }

  function Planned(c: Catalog, r: Request, models: seq<string>): seq<Target> {
    seq(|models|, k requires 0 <= k < |models| => PlannedAt(c, r, models, k))
  }

  function KeptModels(c: Catalog, r: Request): seq<string> {
    Kept(c, Candidates(c, r), |Candidates(c, r)|)
  }

  function Plan(c: Catalog, r: Request): seq<Target> {
    if KeptModels(c, r) == [] then [r.primary] else Planned(c, r, KeptModels(c, r))
  }

  lemma {:induction false} KeptStarts(c: Catalog, r: Request, n: nat)
    requires n <= |Candidates(c, r)|
    ensures n >= 1 ==> |Kept(c, Candidates(c, r), n)| >= Primaries(c, r)
    ensures n >= 1 && Primaries(c, r) == 1 ==> Kept(c, Candidates(c, r), n)[0] == r.primary.model
  {
    if n > 1 { KeptStarts(c, r, n - 1); }
  }

  /** The names of the first `n` models, in lower case. */
  ghost predicate Seen(seen: set<string>, models: seq<string>, n: nat)
    requires n <= |models|
  {
    forall key :: key in seen <==> exists j :: 0 <= j < n && Lower(models[j]) == key
  }

  lemma SeenGrows(seen: set<string>, models: seq<string>, n: nat)
    requires n < |models| && Seen(seen, models, n)
    ensures Lower(models[n]) in seen <==> !FirstOccurrence(models, n)
    ensures Seen(seen + {Lower(models[n])}, models, n + 1)
  {
    assert Lower(models[n]) in seen <==> exists j :: 0 <= j < n && SameModel(models[j], models[n]);
  }

  lemma PrimaryIsFirst(models: seq<string>, i: nat)
    requires i < |models| && FirstOccurrence(models, i) && SameModel(models[0], models[i])
    ensures i == 0
  {
  }

  /** The tool of the next fallback target. */
  method ChooseTool(c: Catalog, r: Request, index: nat, model: string) returns (tool: string)
    ensures tool == FallbackTool(c, r, index, model)
  {
    tool := c.toolFor(model);
    if index < |r.fallbackTools| {
      var explicit := Trim(r.fallbackTools[index]);
      if explicit != "" { tool := c.normalizeTool(explicit); }
    }
    tool := c.normalizeTool(tool);
  }

  /** The loop over the candidates. */
  method BuildPhaseExecutionTargets(c: Catalog, r: Request) returns (targets: seq<Target>)
    ensures targets == Plan(c, r)
  {
    var candidates := Candidates(c, r);
    targets := [];
    var seen: set<string> := {};
    var fallbackIndex := 0;
    for i := 0 to |candidates|
      invariant Seen(seen, candidates, i)
      invariant targets == Planned(c, r, Kept(c, candidates, i))
      invariant i == 0 ==> fallbackIndex == 0
      invariant i > 0 ==> fallbackIndex + Primaries(c, r) == |targets|
    {
      var model := candidates[i];
      KeptStarts(c, r, i + 1);
      SeenGrows(seen, candidates, i);
      var repeated := Lower(model) in seen;
      seen := seen + {Lower(model)};
      if repeated || c.suppressed(model) { continue; }
      PlannedGrows(c, r, Kept(c, candidates, i), model);
      if SameModel(model, r.primary.model) {
        PrimaryIsFirst(candidates, i);
        targets := targets + [r.primary];
      } else {
        var tool := ChooseTool(c, r, fallbackIndex, model);
        fallbackIndex := fallbackIndex + 1;
        targets := targets + [Target(tool, model)];
      }
    }
    if targets == [] {
      targets := [r.primary];
    }
  }

  lemma PlannedGrows(c: Catalog, r: Request, models: seq<string>, model: string)
    ensures Planned(c, r, models + [model]) == Planned(c, r, models) + [PlannedAt(c, r, models + [model], |models|)]
  {
  }

  // ---- what a plan is ----

  lemma {:induction false} KeptFrom(c: Catalog, models: seq<string>, n: nat, m: string) returns (i: nat)
    requires n <= |models| && m in Kept(c, models, n)
    ensures i < n && models[i] == m && FirstOccurrence(models, i)
  {
    i := n - 1;
    if m in Kept(c, models, n - 1) { i := KeptFrom(c, models, n - 1, m); }
  }

  lemma {:induction false} KeptDistinct(c: Catalog, models: seq<string>, n: nat)
    requires n <= |models|
    ensures forall a, b :: 0 <= a < b < |Kept(c, models, n)| ==>
              !SameModel(Kept(c, models, n)[a], Kept(c, models, n)[b])
  {
    if n > 0 {
      var before := Kept(c, models, n - 1);
      KeptDistinct(c, models, n - 1);
      forall a | 0 <= a < |before| && FirstOccurrence(models, n - 1)
        ensures !SameModel(before[a], models[n - 1])
      {
        var i := KeptFrom(c, models, n - 1, before[a]);
      }
    }
  }

  /** The target list is never empty and names no model twice, whatever its case. */
  lemma PlanIsDuplicateFree(c: Catalog, r: Request)
    ensures Plan(c, r) != []
    ensures forall a, b :: 0 <= a < b < |Plan(c, r)| ==> !SameModel(Plan(c, r)[a].model, Plan(c, r)[b].model)
  {
    var n := |Candidates(c, r)|;
    KeptDistinct(c, Candidates(c, r), n);
    KeptStarts(c, r, n);
  }

  function Models(targets: seq<Target>): seq<string> {
    seq(|targets|, i requires 0 <= i < |targets| => targets[i].model)
  }

  /**
   Unless every candidate is suppressed, the models are the candidates' first
   occurrences in order, without the suppressed ones.
   */
  lemma PlanKeepsOrder(c: Catalog, r: Request)
    ensures Models(Plan(c, r)) == if KeptModels(c, r) == [] then [r.primary.model] else KeptModels(c, r)
  {
    KeptStarts(c, r, |Candidates(c, r)|);
  }

  /** A candidate is planned exactly when it is a first occurrence and not suppressed. */
  lemma {:induction false} KeptIff(c: Catalog, models: seq<string>, n: nat, i: nat)
    requires i < n <= |models| && FirstOccurrence(models, i)
    ensures models[i] in Kept(c, models, n) <==> !c.suppressed(models[i])
  {
    if i < n - 1 {
      KeptIff(c, models, n - 1, i);
    } else {
      if models[i] in Kept(c, models, n - 1) {
        var j := KeptFrom(c, models, n - 1, models[i]);
        assert SameModel(models[j], models[i]);
      }
    }
  }

  lemma {:induction false} KeptPrefix(c: Catalog, models: seq<string>, n: nat, m: nat)
    requires n <= m <= |models|
    ensures Kept(c, models, n) <= Kept(c, models, m)
  {
    if n < m { KeptPrefix(c, models, n, m - 1); }
  }

  // ---- which tool a configured fallback gets ----

  function Name(c: Catalog, r: Request, i: nat): string
    requires i < |r.fallbackModels|
  {
    c.canonicalModel(r.fallbackModels[i])
  }

  /** A configured fallback that is planned: not blank, not named before, not suppressed. */
  predicate Usable(c: Catalog, r: Request, i: nat)
    requires i < |r.fallbackModels|
  {
    && Name(c, r, i) != "" && !c.suppressed(Name(c, r, i)) && !SameModel(r.primary.model, Name(c, r, i))
    && forall j :: 0 <= j < i ==> !SameModel(Name(c, r, j), Name(c, r, i))
  }

  /** How many configured fallbacks before `i` are planned. */
  function UsableBefore(c: Catalog, r: Request, i: nat): (n: nat)
    requires i <= |r.fallbackModels|
    ensures n <= i
  {
    if i == 0 then 0 else UsableBefore(c, r, i - 1) + (if Usable(c, r, i - 1) then 1 else 0)
  }

  /** Where the configured fallback `i` stands among the candidates, or would stand. */
  function Place(c: Catalog, r: Request, i: nat): nat
    requires i <= |r.fallbackModels|
  {
    1 + |Configured(c, r.fallbackModels[..i])|
  }

  lemma {:induction false} ConfiguredConcat(c: Catalog, a: seq<string>, b: seq<string>)
    ensures Configured(c, a + b) == Configured(c, a) + Configured(c, b)
  {
    if a == [] {
      assert a + b == b;
    } else {
      assert (a + b)[1..] == a[1..] + b;
      ConfiguredConcat(c, a[1..], b);
    }
  }

  lemma PlaceMoves(c: Catalog, r: Request, i: nat)
    requires i < |r.fallbackModels|
    ensures Configured(c, r.fallbackModels[..i + 1]) ==
            Configured(c, r.fallbackModels[..i]) + (if Name(c, r, i) == "" then [] else [Name(c, r, i)])
  {
    var before, m := r.fallbackModels[..i], r.fallbackModels[i];
    assert r.fallbackModels[..i + 1] == before + [m];
    ConfiguredConcat(c, before, [m]);
    assert Configured(c, [m][1..]) == [];
  }

  /** The candidates before that place are the primary model and the names before `i`. */
  lemma CandidatesBefore(c: Catalog, r: Request, i: nat)
    requires i <= |r.fallbackModels|
    ensures Place(c, r, i) <= |Candidates(c, r)|
    ensures Candidates(c, r)[..Place(c, r, i)] == [r.primary.model] + Configured(c, r.fallbackModels[..i])
  {
    var a, b := r.fallbackModels[..i], r.fallbackModels[i..];
    ConfiguredConcat(c, a, b);
    assert a + b == r.fallbackModels;
    assert Candidates(c, r) == ([r.primary.model] + Configured(c, a)) + (Configured(c, b) + r.routedModels);
  }

  lemma CandidateAt(c: Catalog, r: Request, i: nat)
    requires i < |r.fallbackModels| && Name(c, r, i) != ""
    ensures Place(c, r, i) < |Candidates(c, r)| && Candidates(c, r)[Place(c, r, i)] == Name(c, r, i)
    ensures Place(c, r, i + 1) == Place(c, r, i) + 1
  {
    PlaceMoves(c, r, i);
    CandidatesBefore(c, r, i + 1);
    assert Candidates(c, r)[..Place(c, r, i + 1)][Place(c, r, i)] == Name(c, r, i);
  }

  lemma {:induction false} ConfiguredIn(c: Catalog, r: Request, i: nat, name: string)
    requires i <= |r.fallbackModels|
    ensures name in Configured(c, r.fallbackModels[..i]) <==>
            name != "" && exists j :: 0 <= j < i && Name(c, r, j) == name
  {
    if i > 0 {
      PlaceMoves(c, r, i - 1);
      ConfiguredIn(c, r, i - 1, name);
    }
  }

  /** A named fallback is usable exactly when its candidate is a first occurrence and not suppressed. */
  lemma UsableIff(c: Catalog, r: Request, i: nat)
    requires i < |r.fallbackModels| && Name(c, r, i) != ""
    ensures Place(c, r, i) < |Candidates(c, r)|
    ensures Usable(c, r, i) <==>
            FirstOccurrence(Candidates(c, r), Place(c, r, i)) && !c.suppressed(Name(c, r, i))
  {
    var candidates, p, name := Candidates(c, r), Place(c, r, i), Name(c, r, i);
    CandidateAt(c, r, i);
    CandidatesBefore(c, r, i);
    var before := [r.primary.model] + Configured(c, r.fallbackModels[..i]);
    assert forall j :: 0 <= j < p ==> candidates[j] == before[j];
    if exists j :: 0 <= j < i && SameModel(Name(c, r, j), name) {
      var j :| 0 <= j < i && SameModel(Name(c, r, j), name);
      assert |Lower(name)| > 0;
      ConfiguredIn(c, r, i, Name(c, r, j));
      var named := Configured(c, r.fallbackModels[..i]);
      var k :| 0 <= k < |named| && named[k] == Name(c, r, j);
      assert before[k + 1] == named[k] && SameModel(candidates[k + 1], candidates[p]);
    }
    forall k | 0 <= k < p && SameModel(candidates[k], name)
      ensures !Usable(c, r, i)
    {
      if k > 0 {
        assert before[k] in Configured(c, r.fallbackModels[..i]);
        ConfiguredIn(c, r, i, before[k]);
      }
    }
    assert SameModel(candidates[0], candidates[p]) <==> SameModel(r.primary.model, name);
  }

  /** The targets planned before its place are the primary one, if planned, and the usable fallbacks. */
  lemma {:induction false} KeptBefore(c: Catalog, r: Request, i: nat)
    requires i <= |r.fallbackModels|
    ensures Place(c, r, i) <= |Candidates(c, r)|
    ensures |Kept(c, Candidates(c, r), Place(c, r, i))| == Primaries(c, r) + UsableBefore(c, r, i)
  {
    CandidatesBefore(c, r, i);
    if i == 0 {
      assert Place(c, r, 0) == 1;
      assert Kept(c, Candidates(c, r), 0) == [];
    } else {
      KeptBefore(c, r, i - 1);
      PlaceMoves(c, r, i - 1);
      if Name(c, r, i - 1) != "" {
        CandidateAt(c, r, i - 1);
        UsableIff(c, r, i - 1);
      }
    }
  }

  lemma {:induction false} AllUsableBefore(c: Catalog, r: Request, i: nat)
    requires i <= |r.fallbackModels|
    ensures UsableBefore(c, r, i) == i <==> forall j :: 0 <= j < i ==> Usable(c, r, j)
  {
    if i > 0 { AllUsableBefore(c, r, i - 1); }
  }

  /**
   A configured fallback that is planned gets the tool whose index is the number
   of fallbacks planned before it. That is its own index if and only if every
   fallback configured before it is planned too: not blank, not named before and
   not suppressed. Whether the primary model is suppressed does not matter.
   */
  lemma FallbackToolIff(c: Catalog, r: Request, i: nat)
    requires i < |r.fallbackModels| && Usable(c, r, i)
    ensures var n := UsableBefore(c, r, i);
            var k := Primaries(c, r) + n;
            && k < |Plan(c, r)|
            && Plan(c, r)[k] == Target(FallbackTool(c, r, n, Name(c, r, i)), Name(c, r, i))
            && n <= i && (n == i <==> forall j :: 0 <= j < i ==> Usable(c, r, j))
  {
    var candidates, p, n := Candidates(c, r), Place(c, r, i), UsableBefore(c, r, i);
    UsableIff(c, r, i);
    CandidateAt(c, r, i);
    KeptBefore(c, r, i);
    KeptPrefix(c, candidates, p + 1, |candidates|);
    assert Kept(c, candidates, p + 1) == Kept(c, candidates, p) + [Name(c, r, i)];
    assert KeptModels(c, r)[Primaries(c, r) + n] == Name(c, r, i);
    AllUsableBefore(c, r, i);
  }

  /** The target planned for the configured fallback `i`. */
  function TargetOf(c: Catalog, r: Request, i: nat): (t: Target)
    requires i < |r.fallbackModels| && Usable(c, r, i)
    ensures t in Plan(c, r) && t.model == Name(c, r, i)
  {
    FallbackToolIff(c, r, i);
    Plan(c, r)[Primaries(c, r) + UsableBefore(c, r, i)]
  }

  /** The tool configured at position `j`. */
  function ConfiguredTool(c: Catalog, r: Request, j: nat): string
    requires j < |r.fallbackTools|
  {
    c.normalizeTool(c.normalizeTool(Trim(r.fallbackTools[j])))
  }

  /** Every configured fallback has a tool configured with it, and no two have the same. */
  predicate DistinctTools(c: Catalog, r: Request) {
    && |r.fallbackModels| <= |r.fallbackTools|
    && (forall j :: 0 <= j < |r.fallbackModels| ==> Trim(r.fallbackTools[j]) != "")
    && forall j, k :: 0 <= j < k < |r.fallbackModels| ==> ConfiguredTool(c, r, j) != ConfiguredTool(c, r, k)
  }

  /** Among distinct tools the target has the one configured with it if and only if all before it are planned. */
  lemma OwnToolIff(c: Catalog, r: Request, i: nat)
    requires i < |r.fallbackModels| && Usable(c, r, i) && DistinctTools(c, r)
    ensures TargetOf(c, r, i).tool == ConfiguredTool(c, r, i) <==> forall j :: 0 <= j < i ==> Usable(c, r, j)
  {
    FallbackToolIff(c, r, i);
    assert TargetOf(c, r, i).tool == ConfiguredTool(c, r, UsableBefore(c, r, i));
  }

  /**
   Every planned fallback runs on the tool configured with it, when these are
   distinct, if and only if none is planned after one that is not.
   */
  lemma AllToolsLineUpIff(c: Catalog, r: Request)
    requires DistinctTools(c, r)
    ensures (forall i :: 0 <= i < |r.fallbackModels| && Usable(c, r, i) ==>
                           TargetOf(c, r, i).tool == ConfiguredTool(c, r, i)) <==>
            (forall j, i :: 0 <= j < i < |r.fallbackModels| && Usable(c, r, i) ==> Usable(c, r, j))
  {
    forall i | 0 <= i < |r.fallbackModels| && Usable(c, r, i)
      ensures TargetOf(c, r, i).tool == ConfiguredTool(c, r, i) <==> forall j :: 0 <= j < i ==> Usable(c, r, j)
    {
      OwnToolIff(c, r, i);
    }
  }

  /**
   Every planned target, be it a configured fallback or a routed one, with the
   primary suppressed or not: the primary comes first, and the `n`-th target
   after it runs on the `n`-th configured tool, if there is one that is not
   blank, and otherwise on the tool that belongs to its model.
   */
  lemma PlannedTools(c: Catalog, r: Request, k: nat)
    requires KeptModels(c, r) != [] && k < |Plan(c, r)|
    ensures var first := if c.suppressed(r.primary.model) then 0 else 1;
            var t, n := Plan(c, r)[k], k - first;
            if k < first then t == r.primary
            else if n < |r.fallbackTools| && Trim(r.fallbackTools[n]) != ""
            then t.tool == c.normalizeTool(c.normalizeTool(Trim(r.fallbackTools[n])))
            else t.tool == c.normalizeTool(c.toolFor(t.model))
  {
  }

  /** Where the two differ, a target runs on the tool of its model if and only if none is configured at its position. */
  lemma ModelToolIff(c: Catalog, r: Request, k: nat)
    requires KeptModels(c, r) != [] && Primaries(c, r) <= k < |Plan(c, r)|
    requires var n := k - Primaries(c, r);
             n < |r.fallbackTools| && Trim(r.fallbackTools[n]) != "" ==>
               c.normalizeTool(c.normalizeTool(Trim(r.fallbackTools[n]))) !=
               c.normalizeTool(c.toolFor(Plan(c, r)[k].model))
    ensures Plan(c, r)[k].tool == c.normalizeTool(c.toolFor(Plan(c, r)[k].model)) <==>
            var n := k - Primaries(c, r);
            n >= |r.fallbackTools| || Trim(r.fallbackTools[n]) == ""
  {
    PlannedTools(c, r, k);
  }

  /** With every candidate suppressed the primary target is planned all the same. */
  lemma NothingKept(c: Catalog, r: Request)
    requires forall m :: m in Candidates(c, r) ==> c.suppressed(m)
    ensures Plan(c, r) == [r.primary]
  {
    NoneKept(c, Candidates(c, r), |Candidates(c, r)|);
  }

  lemma {:induction false} NoneKept(c: Catalog, models: seq<string>, n: nat)
    requires n <= |models| && forall m :: m in models ==> c.suppressed(m)
    ensures Kept(c, models, n) == []
  {
    if n > 0 { NoneKept(c, models, n - 1); }
  }

  /** In particular with nothing before it blank, repeated or suppressed, its tool is the one configured with it. */
  lemma FallbackToolsLineUp(c: Catalog, r: Request, i: nat)
    requires i < |r.fallbackModels| && forall j :: 0 <= j <= i ==> Usable(c, r, j)
    ensures var k := Primaries(c, r) + i;
            && k < |Plan(c, r)| && Plan(c, r)[k].model == Name(c, r, i)
            && (i < |r.fallbackTools| && Trim(r.fallbackTools[i]) != "" ==>
                  Plan(c, r)[k].tool == ConfiguredTool(c, r, i))
  {
    FallbackToolIff(c, r, i);
  }

  /** A suppressed, blank or repeated fallback before it gives it an earlier one's tool. */
  lemma SuppressionShiftsTools(c: Catalog, r: Request, j: nat, i: nat)
    requires j < i < |r.fallbackModels| && !Usable(c, r, j) && Usable(c, r, i)
    ensures var n := UsableBefore(c, r, i);
            && n < i && Primaries(c, r) + n < |Plan(c, r)|
            && Plan(c, r)[Primaries(c, r) + n] == Target(FallbackTool(c, r, n, Name(c, r, i)), Name(c, r, i))
  {
    FallbackToolIff(c, r, i);
  }

  function Unchanged(s: string): string {
    s
  }

  function Claude(model: string): string {
    "claude"
  }

  predicate NoGpt(model: string) {
    model == "gpt"
  }

  /** A project that has suppressed its first fallback. */
  const SHIFT_CATALOG := Catalog(Unchanged, Unchanged, Claude, NoGpt)
  const SHIFT_REQUEST := Request(Target("claude", "sonnet"), ["gpt", "gemini-pro"], ["codex", "gemini"], [])

  /** Its second fallback runs on the first one's tool. */
  lemma ShiftedTool()
    ensures |Plan(SHIFT_CATALOG, SHIFT_REQUEST)| >= 2
    ensures Plan(SHIFT_CATALOG, SHIFT_REQUEST)[1] == Target("codex", "gemini-pro")
  {
    var c, r := SHIFT_CATALOG, SHIFT_REQUEST;
    assert |Lower("gpt")| == 3 && |Lower("gemini-pro")| == 10 && |Lower("sonnet")| == 6;
    assert Name(c, r, 0) == "gpt" && Name(c, r, 1) == "gemini-pro";
    assert !Usable(c, r, 0) && Usable(c, r, 1) && Primaries(c, r) == 1;
    FallbackToolIff(c, r, 1);
    assert UsableBefore(c, r, 1) == 0;
    assert Trim("codex") == "codex" by { NothingToTrim("codex"); }
  }

  lemma NothingToTrim(s: string)
    requires s != "" && !IsSpace(s[0]) && !IsSpace(s[|s| - 1])
    ensures Trim(s) == s
  {
  }
}
