/** `pipeline/scripts/3_categorize_sections.py`: classify every section as
    provision, preamble or metadata, writing the file after each one. */
module Categorize {
  import opened Wrappers
  import opened Shared
  import opened Bill

  /** The model call inside `categorize_section`: (title, content preview) to
      the category it returns, or an exception. */
  type Classifier = (string, string) -> Result<Category>

  const PREVIEW_LENGTH: nat := 400

  /** `raw_text[:400] if raw_text else ""`. */
  function ContentPreview(rawText: string): (p: string)
    ensures |p| == if |rawText| < PREVIEW_LENGTH then |rawText| else PREVIEW_LENGTH
    ensures p == rawText[..|p|]
    ensures rawText == "" ==> p == ""
  {
    if rawText == "" then ""
    else if |rawText| <= PREVIEW_LENGTH then rawText
    else rawText[..PREVIEW_LENGTH]
  }

  /** The loop's skip test, negated: `'category' in section and not force`. */
  predicate NeedsCategory(s: Section, force: bool) {
    force || s.category.None?
  }

  /** `categorize_section(title, raw_text)` for one section. */
  function Classify(s: Section, classify: Classifier): Result<Category> {
    classify(s.title, ContentPreview(s.rawText))
  }

  /** `section['category'] = {"type": ..., "reasoning": ...}`. */
  function WithCategory(s: Section, c: Category): Section {
    s.(category := Some(c))
  }

  /** What a loop iteration that does not raise leaves in section `s`. */
  function Categorized(s: Section, force: bool, classify: Classifier): Section {
    if NeedsCategory(s, force) && Classify(s, classify).Success?
    then WithCategory(s, Classify(s, classify).value)
    else s
  }

  /** `Categorized` as a function value, the step `MapPrefix` applies. */
  function CategorizeStep(force: bool, classify: Classifier): Section -> Section {
    s => Categorized(s, force, classify)
  }

  /** `category_counts`. */
  datatype Counts = Counts(provision: nat, preamble: nat, metadata: nat) {
    function Total(): nat {
      provision + preamble + metadata
    }

    function Bump(k: Kind): (c: Counts)
      ensures c.Total() == Total() + 1
    {
      match k
      case ProvisionKind => this.(provision := provision + 1)
      case PreambleKind => this.(preamble := preamble + 1)
      case MetadataKind => this.(metadata := metadata + 1)
    }
  }

  datatype Outcome =
    | NoSections                          // `if not sections: return`
    | Finished(counts: Counts)            // the loop ran to the end
    | Raised(at: nat, error: string)      // the classifier raised on section `at`

  /** The number of sections of `secs` the loop sends to the classifier. */
  function CountNeeding(secs: seq<Section>, force: bool): nat {
    if secs == [] then 0
    else CountNeeding(secs[..|secs| - 1], force) + (if NeedsCategory(secs[|secs| - 1], force) then 1 else 0)
  }

  /** The indices below `hi` of the sections sent to the classifier, in order. */
  function NeedingIndices(secs: seq<Section>, force: bool, hi: nat): seq<nat>
    requires hi <= |secs|
  {
    if hi == 0 then []
    else NeedingIndices(secs, force, hi - 1) + (if NeedsCategory(secs[hi - 1], force) then [hi - 1] else [])
  }

  /** The loop's state after some iterations: the section list, the counts,
      the indices sent to the classifier, and the index and message of the
      exception if the classifier raised. */
  datatype Progress = Progress(
    sections: seq<Section>,
    counts: Counts,
    attempted: seq<nat>,
    raised: Option<(nat, string)>)

  /** The loop of `process_bill` after its first `i` iterations over `s0`
      (fewer if the classifier raised: the loop stops there). */
  function Loop(s0: seq<Section>, dryRun: bool, force: bool, classify: Classifier, i: nat): (p: Progress)
    requires i <= |s0|
    ensures |p.sections| == |s0|
    ensures p.raised.Some? ==> p.raised.value.0 < i
  {
    if i == 0 then Progress(s0, Counts(0, 0, 0), [], None)
    else Step(Loop(s0, dryRun, force, classify, i - 1), i - 1, dryRun, force, classify)
  }

  /** Iteration `k` of the loop, on section `k`. */
  function Step(p: Progress, k: nat, dryRun: bool, force: bool, classify: Classifier): (q: Progress)
    requires k < |p.sections|
    ensures |q.sections| == |p.sections|
    ensures p.raised.Some? ==> q == p
    ensures q.raised.Some? ==> p.raised.Some? || q.raised.value.0 == k
  {
    var s := p.sections[k];
    if p.raised.Some? || !NeedsCategory(s, force) then p
    else
      match Classify(s, classify)
      case Failure(e) => p.(attempted := p.attempted + [k], raised := Some((k, e)))
      case Success(c) =>
        Progress(p.sections[k := WithCategory(s, c)], p.counts.Bump(c.kind), p.attempted + [k], None)
  }

  /** What `process_bill` reports for the section list `s0`. */
  function OutcomeOf(s0: seq<Section>, p: Progress): Outcome {
    if s0 == [] then NoSections
    else if p.raised.Some? then Raised(p.raised.value.0, p.raised.value.1)
    else Finished(p.counts)
  }

  /** The number of file writes after `counts.Total()` sections were
      classified: one per section, none in a dry run. */
  function Writes(counts: Counts, dryRun: bool): nat {
    if dryRun then 0 else counts.Total()
  }

  /** The `raised` field after an iteration on section `at` that raised `error`, if any. */
  function Raising(at: nat, error: Option<string>): Option<(nat, string)> {
    if error.Some? then Some((at, error.value)) else None
  }

  /** One iteration of the loop, on section `i`. */
  method Visit(doc: Document, i: nat, counts: Counts, ghost attempted: seq<nat>,
               dryRun: bool, force: bool, classify: Classifier)
    returns (counts': Counts, ghost attempted': seq<nat>, error: Option<string>)
    requires doc.Valid() && i < |doc.sections|
    requires !dryRun ==> doc.Synced()
    modifies doc`sections, doc`log
    ensures Step(Progress(old(doc.sections), counts, attempted, None), i, dryRun, force, classify)
            == Progress(doc.sections, counts', attempted', Raising(i, error))
    ensures doc.Valid() && old(doc.log) <= doc.log
    ensures |doc.log| + Writes(counts, dryRun) == |old(doc.log)| + Writes(counts', dryRun)
    ensures !dryRun ==> doc.Synced()
  {
    counts', attempted', error := counts, attempted, None;
    var s := doc.sections[i];
    if NeedsCategory(s, force) {
      var res := classify(s.title, ContentPreview(s.rawText));
      attempted' := attempted + [i];
      if res.Failure? {
        error := Some(res.error);
        return;
      }
      counts' := counts.Bump(res.value.kind);
      doc.sections := doc.sections[i := WithCategory(s, res.value)];
      if !dryRun {
        doc.Save();
      }
    }
  }

  /** `process_bill`. The classifier raising ends the run (there is no
      per-section recovery); until then the file is rewritten after every
      classified section unless `dryRun`. */
  method CategorizeSections(doc: Document, dryRun: bool, force: bool, classify: Classifier)
    returns (r: Outcome, ghost attempted: seq<nat>)
    requires doc.Synced()
    modifies doc`sections, doc`log
    ensures var p := Loop(old(doc.sections), dryRun, force, classify, |old(doc.sections)|);
      && r == OutcomeOf(old(doc.sections), p)
      && doc.sections == p.sections
      && attempted == p.attempted
      && doc.Valid()
      && old(doc.log) <= doc.log
      && |doc.log| == |old(doc.log)| + Writes(p.counts, dryRun)
      && (!dryRun ==> doc.Synced())
  {
    var n := |doc.sections|;
    var counts, raised;
    counts, attempted, raised := CategorizeAll(doc, dryRun, force, classify);
    if raised.Some? {
      return Raised(raised.value.0, raised.value.1), attempted;
    }
    if n == 0 {
      return NoSections, attempted;
    }
    return Finished(counts), attempted;
  }

  /** The `for` loop of `process_bill`. */
  method CategorizeAll(doc: Document, dryRun: bool, force: bool, classify: Classifier)
    returns (counts: Counts, ghost attempted: seq<nat>, raised: Option<(nat, string)>)
    requires doc.Synced()
    modifies doc`sections, doc`log
    ensures Loop(old(doc.sections), dryRun, force, classify, |old(doc.sections)|)
         == Progress(doc.sections, counts, attempted, raised)
    ensures doc.Valid() && old(doc.log) <= doc.log
    ensures |doc.log| == |old(doc.log)| + Writes(counts, dryRun)
    ensures !dryRun ==> doc.Synced()
  {
    ghost var s0 := doc.sections;
    ghost var log0 := doc.log;
    var n := |doc.sections|;
    attempted := [];
    counts, raised := Counts(0, 0, 0), None;
    var i := 0;
    while i < n && raised.None?
      invariant 0 <= i <= n
      invariant Loop(s0, dryRun, force, classify, i) == Progress(doc.sections, counts, attempted, raised)
      invariant doc.Valid() && log0 <= doc.log
      invariant !dryRun ==> doc.Synced()
      invariant |doc.log| == |log0| + Writes(counts, dryRun)
    {
      var error;
      counts, attempted, error := Visit(doc, i, counts, attempted, dryRun, force, classify);
      raised := Raising(i, error);
      i := i + 1;
    }
    if raised.Some? {
      LoopStops(s0, dryRun, force, classify, i, n);
    }
  }

  /** Once the classifier has raised, later iterations change nothing. */
  lemma {:induction false} LoopStops(s0: seq<Section>, dryRun: bool, force: bool, classify: Classifier, i: nat, j: nat)
    requires i <= j <= |s0|
    requires Loop(s0, dryRun, force, classify, i).raised.Some?
    ensures Loop(s0, dryRun, force, classify, j) == Loop(s0, dryRun, force, classify, i)
    decreases j - i
  {
    if i < j {
      LoopStops(s0, dryRun, force, classify, i, j - 1);
    }
  }

  /** How far a loop that ran `i` iterations got: the section that raised, or `i`. */
  function Reach(p: Progress, i: nat): nat {
    if p.raised.Some? then p.raised.value.0 else i
  }

  /** What the loop leaves in the sections, and where it stops: every section
      before the stopping point that needed a category got one from the
      classifier, the section it stopped at is one the classifier raised on,
      and all later sections are untouched. */
  lemma {:induction false} LoopSections(s0: seq<Section>, dryRun: bool, force: bool, classify: Classifier, i: nat)
    requires i <= |s0|
    ensures var p := Loop(s0, dryRun, force, classify, i);
      && Reach(p, i) <= i
      && p.sections == MapPrefix(CategorizeStep(force, classify), s0, Reach(p, i))
      && (forall j :: 0 <= j < Reach(p, i) && NeedsCategory(s0[j], force) ==> Classify(s0[j], classify).Success?)
      && (p.raised.Some? ==> NeedsCategory(s0[p.raised.value.0], force)
                             && Classify(s0[p.raised.value.0], classify) == Failure(p.raised.value.1))
  {
    var f := CategorizeStep(force, classify);
    if i == 0 {
      StartSections(s0, dryRun, force, classify);
    } else {
      LoopSections(s0, dryRun, force, classify, i - 1);
      var p := Loop(s0, dryRun, force, classify, i - 1);
      var k := i - 1;
      MapPrefixStep(f, s0, k);
      if p.raised.None? {
        assert p.sections[k] == s0[k];
        if !NeedsCategory(s0[k], force) || Classify(s0[k], classify).Failure? {
          assert p.sections[k := f(s0[k])] == p.sections;
        }
      }
    }
  }

  lemma StartSections(s0: seq<Section>, dryRun: bool, force: bool, classify: Classifier)
    ensures Loop(s0, dryRun, force, classify, 0).sections == MapPrefix(CategorizeStep(force, classify), s0, 0)
  {
    assert MapPrefix(CategorizeStep(force, classify), s0, 0) == s0;
  }

  /** The section the next iteration looks at is still the one loaded. */
  lemma LoopAhead(s0: seq<Section>, dryRun: bool, force: bool, classify: Classifier, i: nat)
    requires i < |s0|
    ensures Loop(s0, dryRun, force, classify, i).raised.None? ==> Loop(s0, dryRun, force, classify, i).sections[i] == s0[i]
  {
    LoopSections(s0, dryRun, force, classify, i);
  }

  /** The indices sent to the classifier are those of the sections needing a
      category, up to and including the one that raised. */
  lemma {:induction false} LoopAttempted(s0: seq<Section>, dryRun: bool, force: bool, classify: Classifier, i: nat)
    requires i <= |s0|
    ensures var p := Loop(s0, dryRun, force, classify, i);
      p.attempted == NeedingIndices(s0, force, if p.raised.Some? then p.raised.value.0 + 1 else i)
  {
    if i > 0 {
      LoopAttempted(s0, dryRun, force, classify, i - 1);
      LoopAhead(s0, dryRun, force, classify, i - 1);
    }
  }

  /** The counts add up to the number of sections classified before the
      stopping point (so the file is written once per classified section). */
  lemma {:induction false} LoopCounts(s0: seq<Section>, dryRun: bool, force: bool, classify: Classifier, i: nat)
    requires i <= |s0|
    ensures var p := Loop(s0, dryRun, force, classify, i);
      && Reach(p, i) <= i
      && p.counts.Total() == CountNeeding(s0[..Reach(p, i)], force)
  {
    if i > 0 {
      var p := Loop(s0, dryRun, force, classify, i - 1);
      LoopCounts(s0, dryRun, force, classify, i - 1);
      LoopAhead(s0, dryRun, force, classify, i - 1);
      StepCounts(s0, dryRun, force, classify, p, i - 1);
      assert Loop(s0, dryRun, force, classify, i) == Step(p, i - 1, dryRun, force, classify);
    }
  }

  lemma StepCounts(s0: seq<Section>, dryRun: bool, force: bool, classify: Classifier, p: Progress, k: nat)
    requires k < |s0| == |p.sections| && Reach(p, k) <= k
    requires p.raised.None? ==> p.sections[k] == s0[k]
    requires p.counts.Total() == CountNeeding(s0[..Reach(p, k)], force)
    ensures var q := Step(p, k, dryRun, force, classify);
      Reach(q, k + 1) <= k + 1 && q.counts.Total() == CountNeeding(s0[..Reach(q, k + 1)], force)
  {
    if p.raised.None? {
      assert s0[..k + 1][..k] == s0[..k];
    }
  }

  /** The sent indices are exactly the sections below `hi` that need a
      category, one per such section. */
  lemma {:induction false} NeedingIndicesExact(secs: seq<Section>, force: bool, hi: nat)
    requires hi <= |secs|
    ensures forall j :: j in NeedingIndices(secs, force, hi) <==> 0 <= j < hi && NeedsCategory(secs[j], force)
    ensures |NeedingIndices(secs, force, hi)| == CountNeeding(secs[..hi], force)
  {
    if hi > 0 {
      NeedingIndicesExact(secs, force, hi - 1);
      assert secs[..hi][..hi - 1] == secs[..hi - 1];
    }
  }

  /** Every section before the stopping point carries a category afterwards. */
  lemma CategorizedBeforeReach(s0: seq<Section>, dryRun: bool, force: bool, classify: Classifier, i: nat)
    requires i <= |s0|
    ensures forall j :: 0 <= j < Reach(Loop(s0, dryRun, force, classify, i), i) ==>
      Loop(s0, dryRun, force, classify, i).sections[j].category.Some?
  {
    LoopSections(s0, dryRun, force, classify, i);
  }

  /** A run without `force` over sections that all carry a category sends
      nothing to the classifier, changes nothing and writes nothing. */
  lemma {:induction false} NothingToDoWhenCategorized(s0: seq<Section>, dryRun: bool, classify: Classifier, i: nat)
    requires i <= |s0|
    requires forall j :: 0 <= j < |s0| ==> s0[j].category.Some?
    ensures Loop(s0, dryRun, false, classify, i) == Progress(s0, Counts(0, 0, 0), [], None)
  {
    if i > 0 {
      NothingToDoWhenCategorized(s0, dryRun, classify, i - 1);
    }
  }

  /** Re-running without `force` on what a finished run left is a no-op; after
      a run that raised at section `k`, the re-run sends no section before `k`. */
  lemma RerunSkipsDoneSections(s0: seq<Section>, dryRun: bool, dryRun2: bool, force: bool, classify: Classifier)
    ensures var p := Loop(s0, dryRun, force, classify, |s0|);
      var q := Loop(p.sections, dryRun2, false, classify, |s0|);
      && (p.raised.None? ==> q == Progress(p.sections, Counts(0, 0, 0), [], None))
      && (forall j :: j in q.attempted ==> Reach(p, |s0|) <= j)
  {
    var p := Loop(s0, dryRun, force, classify, |s0|);
    CategorizedBeforeReach(s0, dryRun, force, classify, |s0|);
    if p.raised.None? {
      NothingToDoWhenCategorized(p.sections, dryRun2, classify, |s0|);
    }
    var q := Loop(p.sections, dryRun2, false, classify, |s0|);
    LoopAttempted(p.sections, dryRun2, false, classify, |s0|);
    var hi := if q.raised.Some? then q.raised.value.0 + 1 else |s0|;
    NeedingIndicesExact(p.sections, false, hi);
  }

  /** The loop writes only `category`: ids, titles, text, summaries and
      impacts, and the order of the sections, stay as they were. */
  lemma OnlyCategoriesChange(s0: seq<Section>, dryRun: bool, force: bool, classify: Classifier, j: nat)
    requires j < |s0|
    ensures Loop(s0, dryRun, force, classify, |s0|).sections[j]
         == s0[j].(category := Loop(s0, dryRun, force, classify, |s0|).sections[j].category)
  {
    LoopSections(s0, dryRun, force, classify, |s0|);
  }
}
