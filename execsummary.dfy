/** `pipeline/scripts/5_generate_executive_summary.py`: write one executive
    summary for the whole bill, from its preambles and summarized provisions. */
module ExecSummary {
  import opened Wrappers
  import opened Shared
  import opened Bill

  /** How much of a preamble's raw text is handed to the generator. */
  const PREAMBLE_CONTENT_LENGTH: nat := 500

  /** `section.get('rawText', '')[:500]`. */
  function PreambleContent(rawText: string): (c: string)
    ensures |c| == if |rawText| < PREAMBLE_CONTENT_LENGTH then |rawText| else PREAMBLE_CONTENT_LENGTH
    ensures c == rawText[..|c|]
  {
    if |rawText| <= PREAMBLE_CONTENT_LENGTH then rawText else rawText[..PREAMBLE_CONTENT_LENGTH]
  }

  /** One element of `relevant_sections`. */
  datatype Entry =
    | PreambleEntry(title: string, content: string)
    | ProvisionEntry(title: string, summary: string)

  /** The category type with the default `''` the selection loop uses. */
  function TypeOf(s: Section): string {
    CategoryType(s, "")
  }

  /** The sections the loop keeps: every preamble, and the provisions that
      already have a summary. */
  predicate Included(s: Section) {
    TypeOf(s) == CATEGORY_PREAMBLE || (TypeOf(s) == CATEGORY_PROVISION && s.summary.Some?)
  }

  function EntryOf(s: Section): Entry
    requires Included(s)
  {
    if TypeOf(s) == CATEGORY_PREAMBLE then PreambleEntry(s.title, PreambleContent(s.rawText))
    else ProvisionEntry(s.title, s.summary.value)
  }

  /** `relevant_sections` for the section list `secs`. */
  function Relevant(secs: seq<Section>): seq<Entry> {
    if secs == [] then []
    else
      var last := secs[|secs| - 1];
      Relevant(secs[..|secs| - 1]) + (if Included(last) then [EntryOf(last)] else [])
  }

  /** The number of sections of `secs` the loop keeps. */
  function CountIncluded(secs: seq<Section>): nat {
    if secs == [] then 0
    else CountIncluded(secs[..|secs| - 1]) + (if Included(secs[|secs| - 1]) then 1 else 0)
  }

  /** Which sections are kept, by category: preambles, and provisions with a
      summary; metadata sections and uncategorised ones never are. */
  lemma IncludedKinds(s: Section)
    ensures Included(s) <==>
      s.category.Some? && (s.category.value.kind == PreambleKind || (s.category.value.kind == ProvisionKind && s.summary.Some?))
    ensures Included(s) ==> (EntryOf(s).PreambleEntry? <==> s.category.value.kind == PreambleKind)
  {
    if s.category.Some? {
      assert CATEGORY_PREAMBLE[2] != CATEGORY_PROVISION[2];
      assert CATEGORY_METADATA[0] != CATEGORY_PREAMBLE[0];
      assert CATEGORY_METADATA[0] != CATEGORY_PROVISION[0];
    }
  }

  /** `relevant_sections` holds one entry per kept section, in section
      order: the kept section `j` sits at position "number of kept sections
      before `j`". */
  lemma {:induction false} RelevantAt(secs: seq<Section>, j: nat)
    requires j < |secs| && Included(secs[j])
    ensures |Relevant(secs)| == CountIncluded(secs)
    ensures CountIncluded(secs[..j]) < |Relevant(secs)|
    ensures Relevant(secs)[CountIncluded(secs[..j])] == EntryOf(secs[j])
  {
    var init := secs[..|secs| - 1];
    if j < |secs| - 1 {
      RelevantAt(init, j);
      assert init[..j] == secs[..j];
    } else {
      assert secs[..j] == init;
      RelevantLength(init);
    }
  }

  lemma {:induction false} RelevantLength(secs: seq<Section>)
    ensures |Relevant(secs)| == CountIncluded(secs)
  {
    if secs != [] {
      RelevantLength(secs[..|secs| - 1]);
    }
  }

  /** The loop of `generate_executive_summary` that builds `relevant_sections`. */
  method GatherRelevant(sections: seq<Section>) returns (r: seq<Entry>)
    ensures r == Relevant(sections)
  {
    r := [];
    var i := 0;
    while i < |sections|
      invariant 0 <= i <= |sections|
      invariant r == Relevant(sections[..i])
    {
      var s := sections[i];
      assert sections[..i + 1][..i] == sections[..i];
      var kind := TypeOf(s);
      if kind == CATEGORY_PREAMBLE {
        r := r + [PreambleEntry(s.title, PreambleContent(s.rawText))];
      } else if kind == CATEGORY_PROVISION && s.summary.Some? {
        r := r + [ProvisionEntry(s.title, s.summary.value)];
      }
      i := i + 1;
    }
    assert sections[..i] == sections;
  }

  /** The model call: (bill title, the kept entries) to the summary text, or
      an exception. The entries are handed over as JSON text, whose layout
      is not modelled. */
  type Generator = (string, seq<Entry>) -> Result<string>

  datatype Outcome =
    | AlreadyPresent            // the key exists and `force` is off
    | NoSections
    | NoProvisions
    | Raised(error: string)     // the generator raised
    | DryRun(summary: string)   // generated but not stored
    | Written(summary: string)

  /** `process_bill`, with `stem` the file name without extension (the bill
      title handed to the generator). */
  method GenerateExecutiveSummary(doc: Document, stem: string, dryRun: bool, force: bool, generate: Generator)
    returns (r: Outcome)
    requires doc.Synced()
    modifies doc`executiveSummary, doc`log
    ensures old(doc.executiveSummary).Some? && !force ==> r == AlreadyPresent
    ensures old(doc.executiveSummary).None? || force ==>
      && (doc.sections == [] ==> r == NoSections)
      && (doc.sections != [] && Provisions(doc.sections) == [] ==> r == NoProvisions)
      && (Provisions(doc.sections) != [] ==>
            match generate(stem, Relevant(doc.sections))
            case Failure(e) => r == Raised(e)
            case Success(t) => r == if dryRun then DryRun(t) else Written(t))
    ensures r.Written? ==> doc.executiveSummary == Some(r.summary) && doc.log == old(doc.log) + [doc.Snapshot()]
    ensures !r.Written? ==> doc.executiveSummary == old(doc.executiveSummary) && doc.log == old(doc.log)
    ensures doc.Synced()
  {
    if doc.executiveSummary.Some? && !force {
      return AlreadyPresent;
    }
    if doc.sections == [] {
      return NoSections;
    }
    if Provisions(doc.sections) == [] {
      return NoProvisions;
    }
    var entries := GatherRelevant(doc.sections);
    var res := generate(stem, entries);
    if res.Failure? {
      return Raised(res.error);
    }
    if dryRun {
      return DryRun(res.value);
    }
    doc.executiveSummary := Some(res.value);
    doc.Save();
    return Written(res.value);
  }
}
