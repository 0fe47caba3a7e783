/** `pipeline/scripts/4_summarize_sections.py`: give every provision a plain
    language summary, writing the file after every tenth one and once at the end. */
module Summarize {
  import opened Wrappers
  import opened Shared
  import opened Bill

  /** The model call inside `summarize_section`: (title, raw text) to the
      summary it returns, or an exception. */
  type Summarizer = (string, string) -> Result<string>

  /** `BATCH_SIZE`: the file is written whenever this many more summaries exist. */
  const BATCH_SIZE: nat := 10

  /** The loop's two skip tests, negated: the section is a provision (the
      category type defaulting to `'unknown'`), and it has no summary yet
      unless `force`. */
  predicate NeedsSummary(s: Section, force: bool) {
    CategoryType(s, "unknown") == CATEGORY_PROVISION && (force || s.summary.None?)
  }

  /** `section['summary'] = summary`. */
  function WithSummary(s: Section, summary: string): Section {
    s.(summary := Some(summary))
  }

  /** What a loop iteration that does not raise leaves in section `s`. */
  function Summarized(s: Section, force: bool, summarize: Summarizer): Section {
    if NeedsSummary(s, force) && summarize(s.title, s.rawText).Success?
    then WithSummary(s, summarize(s.title, s.rawText).value)
    else s
  }

  function SummarizeStep(force: bool, summarize: Summarizer): Section -> Section {
    s => Summarized(s, force, summarize)
  }

  /** The number of sections of `secs` the loop sends to the summarizer. */
  function CountNeeding(secs: seq<Section>, force: bool): nat {
    if secs == [] then 0
    else CountNeeding(secs[..|secs| - 1], force) + (if NeedsSummary(secs[|secs| - 1], force) then 1 else 0)
  }

  datatype Outcome =
    | NoSections                         // `if not sections: return`
    | Finished(summarized: nat)          // the loop ran to the end
    | Raised(at: nat, error: string)     // the summarizer raised on section `at`

  /** The loop's state: the section list, `summarized_count`, and the index
      and message of the exception if the summarizer raised. */
  datatype Progress = Progress(sections: seq<Section>, count: nat, raised: Option<(nat, string)>)

  /** The loop of `process_bill` after its first `i` iterations over `s0`. */
  function Loop(s0: seq<Section>, force: bool, summarize: Summarizer, i: nat): (p: Progress)
    requires i <= |s0|
    ensures |p.sections| == |s0|
    ensures p.raised.Some? ==> p.raised.value.0 < i
  {
    if i == 0 then Progress(s0, 0, None)
    else Step(Loop(s0, force, summarize, i - 1), i - 1, force, summarize)
  }

  /** Iteration `k` of the loop, on section `k`. */
  function Step(p: Progress, k: nat, force: bool, summarize: Summarizer): (q: Progress)
    requires k < |p.sections|
    ensures |q.sections| == |p.sections|
    ensures p.raised.Some? ==> q == p
    ensures q.raised.Some? ==> p.raised.Some? || q.raised.value.0 == k
  {
    var s := p.sections[k];
    if p.raised.Some? || !NeedsSummary(s, force) then p
    else
      match summarize(s.title, s.rawText)
      case Failure(e) => p.(raised := Some((k, e)))
      case Success(t) => Progress(p.sections[k := WithSummary(s, t)], p.count + 1, None)
  }

  function OutcomeOf(s0: seq<Section>, p: Progress): Outcome {
    if s0 == [] then NoSections
    else if p.raised.Some? then Raised(p.raised.value.0, p.raised.value.1)
    else Finished(p.count)
  }

  /** The batch writes done once `count` summaries exist: one per full batch. */
  function BatchWrites(count: nat, dryRun: bool): nat {
    if dryRun then 0 else count / BATCH_SIZE
  }

  /** All writes of a run over `s0` ending in `p`: the batch writes, plus the
      final one when the loop ran to the end. */
  function Writes(s0: seq<Section>, p: Progress, dryRun: bool): nat {
    if dryRun || s0 == [] then 0
    else BatchWrites(p.count, false) + (if p.raised.None? then 1 else 0)
  }

  function Raising(at: nat, error: Option<string>): Option<(nat, string)> {
    if error.Some? then Some((at, error.value)) else None
  }

  /** One iteration of the loop, on section `i`. */
  method Visit(doc: Document, i: nat, count: nat, dryRun: bool, force: bool, summarize: Summarizer)
    returns (count': nat, error: Option<string>)
    requires doc.Valid() && i < |doc.sections|
    requires !dryRun ==> doc.UnsavedAtMost(count % BATCH_SIZE)
    modifies doc`sections, doc`log
    ensures Step(Progress(old(doc.sections), count, None), i, force, summarize)
            == Progress(doc.sections, count', Raising(i, error))
    ensures doc.Valid() && old(doc.log) <= doc.log
    ensures |doc.log| + BatchWrites(count, dryRun) == |old(doc.log)| + BatchWrites(count', dryRun)
    ensures !dryRun ==> doc.UnsavedAtMost(count' % BATCH_SIZE)
  {
    count', error := count, None;
    var s := doc.sections[i];
    if CategoryType(s, "unknown") != CATEGORY_PROVISION {
      return;
    }
    if s.summary.Some? && !force {
      return;
    }
    var res := summarize(s.title, s.rawText);
    if res.Failure? {
      error := Some(res.error);
      return;
    }
    if !dryRun {
      DiffCountUpdate(doc.sections, doc.Disk().sections, i, WithSummary(s, res.value));
    }
    doc.sections := doc.sections[i := WithSummary(s, res.value)];
    count' := count + 1;
    if !dryRun && count' % BATCH_SIZE == 0 {
      doc.Save();
      SyncedNothingUnsaved(doc);
    }
  }

  /** `process_bill`. The summarizer raising ends the run: the file then holds
      what the last batch write saved, which lacks fewer than `BATCH_SIZE` of
      the summaries made. */
  method SummarizeSections(doc: Document, dryRun: bool, force: bool, summarize: Summarizer)
    returns (r: Outcome)
    requires doc.Synced()
    modifies doc`sections, doc`log
    ensures var p := Loop(old(doc.sections), force, summarize, |old(doc.sections)|);
      && r == OutcomeOf(old(doc.sections), p)
      && doc.sections == p.sections
      && old(doc.log) <= doc.log
      && |doc.log| == |old(doc.log)| + Writes(old(doc.sections), p, dryRun)
      && (!dryRun ==> doc.UnsavedAtMost(p.count % BATCH_SIZE))
      && (!dryRun && old(doc.sections) != [] && p.raised.None? ==> doc.Synced())
  {
    var n := |doc.sections|;
    var count, raised := SummarizeAll(doc, dryRun, force, summarize);
    if raised.Some? {
      return Raised(raised.value.0, raised.value.1);
    }
    if n == 0 {
      return NoSections;
    }
    if !dryRun {
      doc.Save();
      SyncedNothingUnsaved(doc);
    }
    return Finished(count);
  }

  /** The `for` loop of `process_bill`, up to the final write. */
  method SummarizeAll(doc: Document, dryRun: bool, force: bool, summarize: Summarizer)
    returns (count: nat, raised: Option<(nat, string)>)
    requires doc.Synced()
    modifies doc`sections, doc`log
    ensures Loop(old(doc.sections), force, summarize, |old(doc.sections)|) == Progress(doc.sections, count, raised)
    ensures doc.Valid() && old(doc.log) <= doc.log
    ensures |doc.log| == |old(doc.log)| + BatchWrites(count, dryRun)
    ensures !dryRun ==> doc.UnsavedAtMost(count % BATCH_SIZE)
  {
    ghost var s0 := doc.sections;
    ghost var log0 := doc.log;
    SyncedNothingUnsaved(doc);
    var n := |doc.sections|;
    count, raised := 0, None;
    var i := 0;
    while i < n && raised.None?
      invariant 0 <= i <= n
      invariant Loop(s0, force, summarize, i) == Progress(doc.sections, count, raised)
      invariant doc.Valid() && log0 <= doc.log
      invariant !dryRun ==> doc.UnsavedAtMost(count % BATCH_SIZE)
      invariant |doc.log| == |log0| + BatchWrites(count, dryRun)
    {
      var error;
      count, error := Visit(doc, i, count, dryRun, force, summarize);
      raised := Raising(i, error);
      i := i + 1;
    }
    if raised.Some? {
      LoopStops(s0, force, summarize, i, n);
    }
  }

  /** Once the summarizer has raised, later iterations change nothing. */
  lemma {:induction false} LoopStops(s0: seq<Section>, force: bool, summarize: Summarizer, i: nat, j: nat)
    requires i <= j <= |s0|
    requires Loop(s0, force, summarize, i).raised.Some?
    ensures Loop(s0, force, summarize, j) == Loop(s0, force, summarize, i)
    decreases j - i
  {
    if i < j {
      LoopStops(s0, force, summarize, i, j - 1);
    }
  }

  /** How far a loop that ran `i` iterations got: the section that raised, or `i`. */
  function Reach(p: Progress, i: nat): nat {
    if p.raised.Some? then p.raised.value.0 else i
  }

  /** What the loop state `p` after `i` iterations over `s0` says about the
      sections: the loop stopped at `Reach(p, i)`; sections before it are
      summarized where needed, the section it stopped at is one the summarizer
      raised on, and later ones are untouched. */
  ghost predicate Explains(s0: seq<Section>, force: bool, summarize: Summarizer, p: Progress, i: nat)
    requires i <= |s0|
  {
    && Reach(p, i) <= i
    && (p.raised.Some? ==> p.raised.value.0 < i)
    && p.sections == MapPrefix(SummarizeStep(force, summarize), s0, Reach(p, i))
    && (forall j :: 0 <= j < Reach(p, i) && NeedsSummary(s0[j], force) ==> summarize(s0[j].title, s0[j].rawText).Success?)
    && (p.raised.Some? ==> var k := p.raised.value.0;
          NeedsSummary(s0[k], force) && summarize(s0[k].title, s0[k].rawText) == Failure(p.raised.value.1))
  }

  lemma LoopExplainsNext(s0: seq<Section>, force: bool, summarize: Summarizer, i: nat)
    requires 0 < i <= |s0| && Explains(s0, force, summarize, Loop(s0, force, summarize, i - 1), i - 1)
    ensures Explains(s0, force, summarize, Loop(s0, force, summarize, i), i)
  {
    var p := Loop(s0, force, summarize, i - 1);
    assert Loop(s0, force, summarize, i) == Step(p, i - 1, force, summarize);
    StepExplains(s0, force, summarize, p, i - 1);
  }

  lemma StepExplains(s0: seq<Section>, force: bool, summarize: Summarizer, p: Progress, k: nat)
    requires k < |s0| && Explains(s0, force, summarize, p, k)
    ensures Explains(s0, force, summarize, Step(p, k, force, summarize), k + 1)
  {
    var f := SummarizeStep(force, summarize);
    MapPrefixStep(f, s0, k);
    if p.raised.None? {
      assert p.sections[k] == s0[k];
      if !NeedsSummary(s0[k], force) || summarize(s0[k].title, s0[k].rawText).Failure? {
        assert p.sections[k := f(s0[k])] == p.sections;
      }
    }
  }

  lemma {:induction false} LoopSections(s0: seq<Section>, force: bool, summarize: Summarizer, i: nat)
    requires i <= |s0|
    ensures Explains(s0, force, summarize, Loop(s0, force, summarize, i), i)
  {
    if i == 0 {
      StartExplains(s0, force, summarize);
    } else {
      LoopSections(s0, force, summarize, i - 1);
      LoopExplainsNext(s0, force, summarize, i);
    }
  }

  lemma StartExplains(s0: seq<Section>, force: bool, summarize: Summarizer)
    ensures Explains(s0, force, summarize, Loop(s0, force, summarize, 0), 0)
  {
    assert MapPrefix(SummarizeStep(force, summarize), s0, 0) == s0;
  }

  /** The section the next iteration looks at is still the one loaded. */
  lemma LoopAhead(s0: seq<Section>, force: bool, summarize: Summarizer, i: nat)
    requires i < |s0|
    ensures Loop(s0, force, summarize, i).raised.None? ==> Loop(s0, force, summarize, i).sections[i] == s0[i]
  {
    LoopSections(s0, force, summarize, i);
  }

  /** `summarized_count` is the number of sections needing a summary
      before the stopping point. */
  lemma {:induction false} LoopCount(s0: seq<Section>, force: bool, summarize: Summarizer, i: nat)
    requires i <= |s0|
    ensures Loop(s0, force, summarize, i).count == CountNeeding(s0[..Reach(Loop(s0, force, summarize, i), i)], force)
  {
    if i > 0 {
      var p := Loop(s0, force, summarize, i - 1);
      LoopAhead(s0, force, summarize, i - 1);
      LoopCount(s0, force, summarize, i - 1);
      assert Reach(p, i - 1) <= i - 1;
      StepCount(s0, force, summarize, p, i - 1);
      assert Loop(s0, force, summarize, i) == Step(p, i - 1, force, summarize);
    }
  }

  lemma StepCount(s0: seq<Section>, force: bool, summarize: Summarizer, p: Progress, k: nat)
    requires k < |s0| == |p.sections| && Reach(p, k) <= k
    requires p.raised.None? ==> p.sections[k] == s0[k]
    requires p.count == CountNeeding(s0[..Reach(p, k)], force)
    ensures Step(p, k, force, summarize).count == CountNeeding(s0[..Reach(Step(p, k, force, summarize), k + 1)], force)
  {
    if p.raised.None? {
      assert s0[..k + 1][..k] == s0[..k];
    }
  }

  /** Only provisions are sent to the summarizer, so the progress counter
      `summarized_count/len(provisions)` never passes its total. */
  lemma {:induction false} CountNeedingAtMostProvisions(secs: seq<Section>, force: bool, k: nat)
    requires k <= |secs|
    ensures CountNeeding(secs[..k], force) <= |Provisions(secs)|
    decreases |secs|
  {
    if k < |secs| {
      assert secs[..|secs| - 1][..k] == secs[..k];
      CountNeedingAtMostProvisions(secs[..|secs| - 1], force, k);
    } else if secs != [] {
      assert secs[..k][..|secs| - 1] == secs[..|secs| - 1][..|secs| - 1];
      CountNeedingAtMostProvisions(secs[..|secs| - 1], force, |secs| - 1);
      ProvisionTest(secs[|secs| - 1], "unknown");
    }
  }

  lemma SummarizedCountAtMostProvisions(s0: seq<Section>, force: bool, summarize: Summarizer)
    ensures Loop(s0, force, summarize, |s0|).count <= |Provisions(s0)|
  {
    LoopCount(s0, force, summarize, |s0|);
    var p := Loop(s0, force, summarize, |s0|);
    CountNeedingAtMostProvisions(s0, force, Reach(p, |s0|));
  }

  /** Sections that are not provisions leave the loop unchanged, and so do
      provisions already summarized when `force` is off. */
  lemma LoopKeeps(s0: seq<Section>, force: bool, summarize: Summarizer, j: nat)
    requires j < |s0|
    requires !IsProvision(s0[j]) || (!force && s0[j].summary.Some?)
    ensures Loop(s0, force, summarize, |s0|).sections[j] == s0[j]
  {
    LoopSections(s0, force, summarize, |s0|);
    ProvisionTest(s0[j], "unknown");
  }

  /** After a run that did not raise, every provision carries a summary. */
  lemma ProvisionsSummarized(s0: seq<Section>, force: bool, summarize: Summarizer, j: nat)
    requires j < |s0| && IsProvision(s0[j])
    requires Loop(s0, force, summarize, |s0|).raised.None?
    ensures Loop(s0, force, summarize, |s0|).sections[j].summary.Some?
  {
    LoopSections(s0, force, summarize, |s0|);
    ProvisionTest(s0[j], "unknown");
  }

  /** The loop writes only `summary`: ids, titles, text, categories and
      impacts, and the order of the sections, stay as they were. */
  lemma OnlySummariesChange(s0: seq<Section>, force: bool, summarize: Summarizer, j: nat)
    requires j < |s0|
    ensures Loop(s0, force, summarize, |s0|).sections[j]
         == s0[j].(summary := Loop(s0, force, summarize, |s0|).sections[j].summary)
  {
    LoopSections(s0, force, summarize, |s0|);
  }

  /** A run without `force` over sections whose provisions all carry a summary
      sends nothing to the summarizer and changes nothing. */
  lemma {:induction false} NothingToDoWhenSummarized(s0: seq<Section>, summarize: Summarizer, i: nat)
    requires i <= |s0|
    requires forall j :: 0 <= j < |s0| && IsProvision(s0[j]) ==> s0[j].summary.Some?
    ensures Loop(s0, false, summarize, i) == Progress(s0, 0, None)
  {
    if i > 0 {
      NothingToDoWhenSummarized(s0, summarize, i - 1);
      ProvisionTest(s0[i - 1], "unknown");
    }
  }

  /** Re-running without `force` on what a finished run left is a no-op. */
  lemma RerunIsNoOp(s0: seq<Section>, force: bool, summarize: Summarizer)
    requires Loop(s0, force, summarize, |s0|).raised.None?
    ensures Loop(Loop(s0, force, summarize, |s0|).sections, false, summarize, |s0|)
         == Progress(Loop(s0, force, summarize, |s0|).sections, 0, None)
  {
    var p := Loop(s0, force, summarize, |s0|);
    forall j | 0 <= j < |s0| && IsProvision(p.sections[j])
      ensures p.sections[j].summary.Some?
    {
      OnlySummariesChange(s0, force, summarize, j);
      ProvisionsSummarized(s0, force, summarize, j);
    }
    NothingToDoWhenSummarized(p.sections, summarize, |s0|);
  }
}
