/** `pipeline/scripts/6_assess_impact.py`: rate every provision's impact on
    each of the four topics, writing the file after every tenth one and once
    at the end. */
module Assess {
  import opened Wrappers
  import opened Shared
  import opened Bill

  /** The structured answer of the assessment model: one level per topic, the
      model's reasoning and its confidence. */
  datatype Assessment = Assessment(
    digitalInnovation: ImpactLevel,
    freedomOfSpeech: ImpactLevel,
    privacyDataRights: ImpactLevel,
    businessEnvironment: ImpactLevel,
    reasoning: string,
    confidence: real)
  {
    function LevelFor(t: Topic): ImpactLevel {
      match t
      case DigitalInnovation => digitalInnovation
      case FreedomOfSpeech => freedomOfSpeech
      case PrivacyDataRights => privacyDataRights
      case BusinessEnvironment => businessEnvironment
    }
  }

  /** The model call inside `assess_impact`: (bill context, title, raw text)
      to its assessment, or an exception. */
  type Assessor = (string, string, string) -> Result<Assessment>

  /** `BATCH_SIZE`: the file is written whenever this many more assessments exist. */
  const BATCH_SIZE: nat := 10

  /** The dictionary `assess_impact` returns: the levels keyed by `TOPICS` in
      order, then the reasoning and the confidence. */
  function ToImpact(a: Assessment): Impact {
    Impact(LevelPairs(a, ALL_TOPICS), a.reasoning, Some(a.confidence))
  }

  /** `{topic.value: level, ...}` for the topics `ts`, in order. */
  function LevelPairs(a: Assessment, ts: seq<Topic>): seq<(string, string)> {
    if ts == [] then [] else [(ts[0].Name(), a.LevelFor(ts[0]).Name())] + LevelPairs(a, ts[1..])
  }

  lemma {:induction false} LevelPairsAt(a: Assessment, ts: seq<Topic>, j: nat)
    ensures |LevelPairs(a, ts)| == |ts|
    ensures j < |ts| ==> LevelPairs(a, ts)[j] == (ts[j].Name(), a.LevelFor(ts[j]).Name())
  {
    if ts != [] {
      LevelPairsAt(a, ts[1..], if j == 0 then 0 else j - 1);
    }
  }

  /** The written levels have exactly the four topics as keys, in order, and
      each carries the level the model chose for it. */
  lemma ImpactKeys(a: Assessment)
    ensures |ToImpact(a).levels| == |TOPICS|
    ensures forall t: Topic :: ToImpact(a).levels[t.Index()] == (t.Name(), a.LevelFor(t).Name())
    ensures forall j :: 0 <= j < |TOPICS| ==> ToImpact(a).levels[j].0 == TOPICS[j]
  {
    TopicsAreTheFourDistinctNames();
    LevelPairsAt(a, ALL_TOPICS, 0);
    forall t: Topic ensures ToImpact(a).levels[t.Index()] == (t.Name(), a.LevelFor(t).Name()) {
      LevelPairsAt(a, ALL_TOPICS, t.Index());
    }
    forall j | 0 <= j < |TOPICS| ensures ToImpact(a).levels[j].0 == TOPICS[j] {
      LevelPairsAt(a, ALL_TOPICS, j);
    }
  }

  /** Reading a topic back from the written impact, as the later stages do
      with `levels.get(topic, 'none')`, gives the level the model chose for
      that topic; it is never `'none'`. */
  lemma LevelsReadBack(a: Assessment, t: Topic)
    ensures LevelOf(ToImpact(a).levels, t.Name()) == a.LevelFor(t).Name()
    ensures LevelOf(ToImpact(a).levels, t.Name()) != NONE
  {
    ImpactKeys(a);
    TopicsAreTheFourDistinctNames();
    LevelOfDistinctKeys(ToImpact(a).levels, t.Index());
    ImpactLevelScale(a.LevelFor(t), a.LevelFor(t));
  }

  /** The loop's two skip tests, negated: the section is a provision (the
      category type defaulting to `'unknown'`), and it has no impact yet
      unless `force`. */
  predicate NeedsImpact(s: Section, force: bool) {
    CategoryType(s, "unknown") == CATEGORY_PROVISION && (force || s.impact.None?)
  }

  /** `section['impact'] = result`. */
  function WithImpact(s: Section, a: Assessment): Section {
    s.(impact := Some(ToImpact(a)))
  }

  /** What a loop iteration that does not raise leaves in section `s`. */
  function Assessed(s: Section, context: string, force: bool, assess: Assessor): Section {
    if NeedsImpact(s, force) && assess(context, s.title, s.rawText).Success?
    then WithImpact(s, assess(context, s.title, s.rawText).value)
    else s
  }

  function AssessStep(context: string, force: bool, assess: Assessor): Section -> Section {
    s => Assessed(s, context, force, assess)
  }

  /** The number of sections of `secs` the loop sends to the assessor. */
  function CountNeeding(secs: seq<Section>, force: bool): nat {
    if secs == [] then 0
    else CountNeeding(secs[..|secs| - 1], force) + (if NeedsImpact(secs[|secs| - 1], force) then 1 else 0)
  }

  datatype Outcome =
    | NoSections                         // `if not sections: return`
    | Finished(assessed: nat)            // the loop ran to the end
    | Raised(at: nat, error: string)     // the assessor raised on section `at`

  /** The loop's state: the section list, `assessed_count`, and the index and
      message of the exception if the assessor raised. */
  datatype Progress = Progress(sections: seq<Section>, count: nat, raised: Option<(nat, string)>)

  /** The loop of `process_bill` after its first `i` iterations over `s0`,
      with `context` the bill context handed to every call. */
  function Loop(s0: seq<Section>, context: string, force: bool, assess: Assessor, i: nat): (p: Progress)
    requires i <= |s0|
    ensures |p.sections| == |s0|
    ensures p.raised.Some? ==> p.raised.value.0 < i
  {
    if i == 0 then Progress(s0, 0, None)
    else Step(Loop(s0, context, force, assess, i - 1), i - 1, context, force, assess)
  }

  /** Iteration `k` of the loop, on section `k`. */
  function Step(p: Progress, k: nat, context: string, force: bool, assess: Assessor): (q: Progress)
    requires k < |p.sections|
    ensures |q.sections| == |p.sections|
    ensures p.raised.Some? ==> q == p
    ensures q.raised.Some? ==> p.raised.Some? || q.raised.value.0 == k
  {
    var s := p.sections[k];
    if p.raised.Some? || !NeedsImpact(s, force) then p
    else
      match assess(context, s.title, s.rawText)
      case Failure(e) => p.(raised := Some((k, e)))
      case Success(a) => Progress(p.sections[k := WithImpact(s, a)], p.count + 1, None)
  }

  function OutcomeOf(s0: seq<Section>, p: Progress): Outcome {
    if s0 == [] then NoSections
    else if p.raised.Some? then Raised(p.raised.value.0, p.raised.value.1)
    else Finished(p.count)
  }

  /** The batch writes done once `count` assessments exist: one per full batch. */
  function BatchWrites(count: nat, dryRun: bool): nat {
    if dryRun then 0 else count / BATCH_SIZE
  }

  /** All writes of a run over `s0` ending in `p`: the batch writes, plus the
      final one when the loop ran to the end. */
  function Writes(s0: seq<Section>, p: Progress, dryRun: bool): nat {
    if dryRun || s0 == [] then 0
    else BatchWrites(p.count, false) + (if p.raised.None? then 1 else 0)
  }

  function Raising(at: nat, error: Option<string>): Option<(nat, string)> {
    if error.Some? then Some((at, error.value)) else None
  }

  /** One iteration of the loop, on section `i`. */
  method Visit(doc: Document, i: nat, count: nat, context: string, dryRun: bool, force: bool, assess: Assessor)
    returns (count': nat, error: Option<string>)
    requires doc.Valid() && i < |doc.sections|
    requires !dryRun ==> doc.UnsavedAtMost(count % BATCH_SIZE)
    modifies doc`sections, doc`log
    ensures Step(Progress(old(doc.sections), count, None), i, context, force, assess)
            == Progress(doc.sections, count', Raising(i, error))
    ensures doc.Valid() && old(doc.log) <= doc.log
    ensures |doc.log| + BatchWrites(count, dryRun) == |old(doc.log)| + BatchWrites(count', dryRun)
    ensures !dryRun ==> doc.UnsavedAtMost(count' % BATCH_SIZE)
  {
    count', error := count, None;
    var s := doc.sections[i];
    if CategoryType(s, "unknown") != CATEGORY_PROVISION {
      return;
    }
    if s.impact.Some? && !force {
      return;
    }
    var res := assess(context, s.title, s.rawText);
    if res.Failure? {
      error := Some(res.error);
      return;
    }
    if !dryRun {
      DiffCountUpdate(doc.sections, doc.Disk().sections, i, WithImpact(s, res.value));
    }
    doc.sections := doc.sections[i := WithImpact(s, res.value)];
    count' := count + 1;
    if !dryRun && count' % BATCH_SIZE == 0 {
      doc.Save();
      SyncedNothingUnsaved(doc);
    }
  }

  /** `process_bill`. Every call gets the executive summary as context (a
      placeholder when it is missing). The assessor raising ends the run: the
      file then holds what the last batch write saved, which lacks fewer than
      `BATCH_SIZE` of the assessments made. */
  method AssessSections(doc: Document, dryRun: bool, force: bool, assess: Assessor)
    returns (r: Outcome)
    requires doc.Synced()
    modifies doc`sections, doc`log
    ensures var p := Loop(old(doc.sections), BillContext(old(doc.executiveSummary)), force, assess, |old(doc.sections)|);
      && r == OutcomeOf(old(doc.sections), p)
      && doc.sections == p.sections
      && old(doc.log) <= doc.log
      && |doc.log| == |old(doc.log)| + Writes(old(doc.sections), p, dryRun)
      && (!dryRun ==> doc.UnsavedAtMost(p.count % BATCH_SIZE))
      && (!dryRun && old(doc.sections) != [] && p.raised.None? ==> doc.Synced())
  {
    var n := |doc.sections|;
    var context := BillContext(doc.executiveSummary);
    var count, raised := AssessAll(doc, context, dryRun, force, assess);
    if raised.Some? {
      return Raised(raised.value.0, raised.value.1);
    }
    if n == 0 {
      return NoSections;
    }
    if !dryRun {
      doc.Save();
      SyncedNothingUnsaved(doc);
    }
    return Finished(count);
  }

  /** The `for` loop of `process_bill`, up to the final write. */
  method AssessAll(doc: Document, context: string, dryRun: bool, force: bool, assess: Assessor)
    returns (count: nat, raised: Option<(nat, string)>)
    requires doc.Synced()
    modifies doc`sections, doc`log
    ensures Loop(old(doc.sections), context, force, assess, |old(doc.sections)|) == Progress(doc.sections, count, raised)
    ensures doc.Valid() && old(doc.log) <= doc.log
    ensures |doc.log| == |old(doc.log)| + BatchWrites(count, dryRun)
    ensures !dryRun ==> doc.UnsavedAtMost(count % BATCH_SIZE)
  {
    ghost var s0 := doc.sections;
    ghost var log0 := doc.log;
    SyncedNothingUnsaved(doc);
    var n := |doc.sections|;
    count, raised := 0, None;
    var i := 0;
    while i < n && raised.None?
      invariant 0 <= i <= n
      invariant Loop(s0, context, force, assess, i) == Progress(doc.sections, count, raised)
      invariant doc.Valid() && log0 <= doc.log
      invariant !dryRun ==> doc.UnsavedAtMost(count % BATCH_SIZE)
      invariant |doc.log| == |log0| + BatchWrites(count, dryRun)
    {
      var error;
      count, error := Visit(doc, i, count, context, dryRun, force, assess);
      raised := Raising(i, error);
      i := i + 1;
    }
    if raised.Some? {
      LoopStops(s0, context, force, assess, i, n);
    }
  }

  /** Once the assessor has raised, later iterations change nothing. */
  lemma {:induction false} LoopStops(s0: seq<Section>, context: string, force: bool, assess: Assessor, i: nat, j: nat)
    requires i <= j <= |s0|
    requires Loop(s0, context, force, assess, i).raised.Some?
    ensures Loop(s0, context, force, assess, j) == Loop(s0, context, force, assess, i)
    decreases j - i
  {
    if i < j {
      LoopStops(s0, context, force, assess, i, j - 1);
    }
  }

  /** How far a loop that ran `i` iterations got: the section that raised, or `i`. */
  function Reach(p: Progress, i: nat): nat {
    if p.raised.Some? then p.raised.value.0 else i
  }

  /** What the loop state `p` after `i` iterations over `s0` says about the
      sections: the loop stopped at `Reach(p, i)`; sections before it are
      assessed where needed, the section it stopped at is one the assessor
      raised on, and later ones are untouched. */
  ghost predicate Explains(s0: seq<Section>, context: string, force: bool, assess: Assessor, p: Progress, i: nat)
    requires i <= |s0|
  {
    && Reach(p, i) <= i
    && (p.raised.Some? ==> p.raised.value.0 < i)
    && p.sections == MapPrefix(AssessStep(context, force, assess), s0, Reach(p, i))
    && (forall j :: 0 <= j < Reach(p, i) && NeedsImpact(s0[j], force) ==> assess(context, s0[j].title, s0[j].rawText).Success?)
    && (p.raised.Some? ==> var k := p.raised.value.0;
          NeedsImpact(s0[k], force) && assess(context, s0[k].title, s0[k].rawText) == Failure(p.raised.value.1))
  }

  lemma LoopExplainsNext(s0: seq<Section>, context: string, force: bool, assess: Assessor, i: nat)
    requires 0 < i <= |s0| && Explains(s0, context, force, assess, Loop(s0, context, force, assess, i - 1), i - 1)
    ensures Explains(s0, context, force, assess, Loop(s0, context, force, assess, i), i)
  {
    var p := Loop(s0, context, force, assess, i - 1);
    assert Loop(s0, context, force, assess, i) == Step(p, i - 1, context, force, assess);
    StepExplains(s0, context, force, assess, p, i - 1);
  }

  lemma StepExplains(s0: seq<Section>, context: string, force: bool, assess: Assessor, p: Progress, k: nat)
    requires k < |s0| && Explains(s0, context, force, assess, p, k)
    ensures Explains(s0, context, force, assess, Step(p, k, context, force, assess), k + 1)
  {
    var f := AssessStep(context, force, assess);
    MapPrefixStep(f, s0, k);
    if p.raised.None? {
      assert p.sections[k] == s0[k];
      if !NeedsImpact(s0[k], force) || assess(context, s0[k].title, s0[k].rawText).Failure? {
        assert p.sections[k := f(s0[k])] == p.sections;
      }
    }
  }

  lemma {:induction false} LoopSections(s0: seq<Section>, context: string, force: bool, assess: Assessor, i: nat)
    requires i <= |s0|
    ensures Explains(s0, context, force, assess, Loop(s0, context, force, assess, i), i)
  {
    if i == 0 {
      StartExplains(s0, context, force, assess);
    } else {
      LoopSections(s0, context, force, assess, i - 1);
      LoopExplainsNext(s0, context, force, assess, i);
    }
  }

  lemma StartExplains(s0: seq<Section>, context: string, force: bool, assess: Assessor)
    ensures Explains(s0, context, force, assess, Loop(s0, context, force, assess, 0), 0)
  {
    assert MapPrefix(AssessStep(context, force, assess), s0, 0) == s0;
  }

  /** The section the next iteration looks at is still the one loaded. */
  lemma LoopAhead(s0: seq<Section>, context: string, force: bool, assess: Assessor, i: nat)
    requires i < |s0|
    ensures Loop(s0, context, force, assess, i).raised.None? ==> Loop(s0, context, force, assess, i).sections[i] == s0[i]
  {
    LoopSections(s0, context, force, assess, i);
  }

  /** Sections that are not provisions leave the loop unchanged, and so do
      provisions already assessed when `force` is off. */
  lemma LoopKeeps(s0: seq<Section>, context: string, force: bool, assess: Assessor, j: nat)
    requires j < |s0|
    requires !IsProvision(s0[j]) || (!force && s0[j].impact.Some?)
    ensures Loop(s0, context, force, assess, |s0|).sections[j] == s0[j]
  {
    LoopSections(s0, context, force, assess, |s0|);
    ProvisionTest(s0[j], "unknown");
  }

  /** After a run that did not raise, every provision carries an impact whose
      levels are keyed by the four topics in order. */
  lemma ProvisionsAssessed(s0: seq<Section>, context: string, force: bool, assess: Assessor, j: nat)
    requires j < |s0| && IsProvision(s0[j])
    requires Loop(s0, context, force, assess, |s0|).raised.None?
    ensures Loop(s0, context, force, assess, |s0|).sections[j].impact.Some?
    ensures force || s0[j].impact.None? ==>
      var l := Loop(s0, context, force, assess, |s0|).sections[j].impact.value.levels;
      |l| == |TOPICS| && forall t :: 0 <= t < |TOPICS| ==> l[t].0 == TOPICS[t]
  {
    LoopSections(s0, context, force, assess, |s0|);
    ProvisionTest(s0[j], "unknown");
    if force || s0[j].impact.None? {
      ImpactKeys(assess(context, s0[j].title, s0[j].rawText).value);
    }
  }

  /** `assessed_count` is the number of sections needing an assessment
      before the stopping point. */
  lemma {:induction false} LoopCount(s0: seq<Section>, context: string, force: bool, assess: Assessor, i: nat)
    requires i <= |s0|
    ensures Loop(s0, context, force, assess, i).count == CountNeeding(s0[..Reach(Loop(s0, context, force, assess, i), i)], force)
  {
    if i > 0 {
      var p := Loop(s0, context, force, assess, i - 1);
      LoopAhead(s0, context, force, assess, i - 1);
      LoopCount(s0, context, force, assess, i - 1);
      assert Reach(p, i - 1) <= i - 1;
      StepCount(s0, context, force, assess, p, i - 1);
      assert Loop(s0, context, force, assess, i) == Step(p, i - 1, context, force, assess);
    }
  }

  lemma StepCount(s0: seq<Section>, context: string, force: bool, assess: Assessor, p: Progress, k: nat)
    requires k < |s0| == |p.sections| && Reach(p, k) <= k
    requires p.raised.None? ==> p.sections[k] == s0[k]
    requires p.count == CountNeeding(s0[..Reach(p, k)], force)
    ensures Step(p, k, context, force, assess).count == CountNeeding(s0[..Reach(Step(p, k, context, force, assess), k + 1)], force)
  {
    if p.raised.None? {
      assert s0[..k + 1][..k] == s0[..k];
    }
  }

  /** Only provisions are sent to the assessor, so the progress counter
      `assessed_count/len(provisions)` never passes its total. */
  lemma {:induction false} CountNeedingAtMostProvisions(secs: seq<Section>, force: bool, k: nat)
    requires k <= |secs|
    ensures CountNeeding(secs[..k], force) <= |Provisions(secs)|
    decreases |secs|
  {
    if k < |secs| {
      assert secs[..|secs| - 1][..k] == secs[..k];
      CountNeedingAtMostProvisions(secs[..|secs| - 1], force, k);
    } else if secs != [] {
      assert secs[..k][..|secs| - 1] == secs[..|secs| - 1][..|secs| - 1];
      CountNeedingAtMostProvisions(secs[..|secs| - 1], force, |secs| - 1);
      ProvisionTest(secs[|secs| - 1], "unknown");
    }
  }

  lemma AssessedCountAtMostProvisions(s0: seq<Section>, context: string, force: bool, assess: Assessor)
    ensures Loop(s0, context, force, assess, |s0|).count <= |Provisions(s0)|
  {
    LoopCount(s0, context, force, assess, |s0|);
    var p := Loop(s0, context, force, assess, |s0|);
    CountNeedingAtMostProvisions(s0, force, Reach(p, |s0|));
  }

  /** The loop writes only `impact`: ids, titles, text, categories and
      summaries, and the order of the sections, stay as they were. */
  lemma OnlyImpactsChange(s0: seq<Section>, context: string, force: bool, assess: Assessor, j: nat)
    requires j < |s0|
    ensures Loop(s0, context, force, assess, |s0|).sections[j]
         == s0[j].(impact := Loop(s0, context, force, assess, |s0|).sections[j].impact)
  {
    LoopSections(s0, context, force, assess, |s0|);
  }

  /** A run without `force` over sections whose provisions all carry an impact
      sends nothing to the assessor and changes nothing. */
  lemma {:induction false} NothingToDoWhenAssessed(s0: seq<Section>, context: string, assess: Assessor, i: nat)
    requires i <= |s0|
    requires forall j :: 0 <= j < |s0| && IsProvision(s0[j]) ==> s0[j].impact.Some?
    ensures Loop(s0, context, false, assess, i) == Progress(s0, 0, None)
  {
    if i > 0 {
      NothingToDoWhenAssessed(s0, context, assess, i - 1);
      ProvisionTest(s0[i - 1], "unknown");
    }
  }

  /** Re-running without `force` on what a finished run left is a no-op,
      whatever the bill context of the second run. */
  lemma RerunIsNoOp(s0: seq<Section>, context: string, context2: string, force: bool, assess: Assessor)
    requires Loop(s0, context, force, assess, |s0|).raised.None?
    ensures Loop(Loop(s0, context, force, assess, |s0|).sections, context2, false, assess, |s0|)
         == Progress(Loop(s0, context, force, assess, |s0|).sections, 0, None)
  {
    var p := Loop(s0, context, force, assess, |s0|);
    forall j | 0 <= j < |s0| && IsProvision(p.sections[j])
      ensures p.sections[j].impact.Some?
    {
      OnlyImpactsChange(s0, context, force, assess, j);
      ProvisionsAssessed(s0, context, force, assess, j);
    }
    NothingToDoWhenAssessed(p.sections, context2, assess, |s0|);
  }
}
