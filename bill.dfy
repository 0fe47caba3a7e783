/** The bill JSON document that every stage loads, annotates and writes back:
    an ordered `sections` list plus bill-level keys whose presence marks a
    finished stage. */
module Bill {
  import opened Wrappers
  import opened Shared

  /** The three section categories (the classifier's closed answer set). */
  datatype Kind = ProvisionKind | PreambleKind | MetadataKind {
    function Name(): string {
      match this
      case ProvisionKind => CATEGORY_PROVISION
      case PreambleKind => CATEGORY_PREAMBLE
      case MetadataKind => CATEGORY_METADATA
    }
  }

  /** `section['category']` as stage 3 writes it: `{"type": ..., "reasoning": ...}`. */
  datatype Category = Category(kind: Kind, reasoning: string)

  /** `section['impact']` as stage 6 writes it. `levels` is the JSON object of
      topic name to level string, as (key, value) pairs in insertion order. */
  datatype Impact = Impact(levels: seq<(string, string)>, reasoning: string, confidence: Option<real>)

  /** One section. `id`, `index`, `title` and `rawText` come from stage 2; the
      optional fields are absent until their stage writes them. `legacyImpacts`
      holds when the section carries a non-empty value under the key `impacts`
      (plural), a key no stage of the pipeline writes. */
  datatype Section = Section(
    id: string,
    index: int,
    title: string,
    rawText: string,
    category: Option<Category>,
    summary: Option<string>,
    impact: Option<Impact>,
    legacyImpacts: bool)

  /** `{"score": ..., "analysis": ...}` returned by the topic analyser. */
  datatype AnalysisText = AnalysisText(score: string, analysis: string)

  /** One entry of `impactAnalyses`. */
  datatype TopicAnalysis = TopicAnalysis(analysis: AnalysisText, affectedProvisions: nat, relatedProvisions: seq<string>)

  /** One entry of `keyConcerns`. */
  datatype Concern = Concern(id: string, title: string, severity: string, description: string, relatedProvisions: seq<string>)

  /** `metadata['statistics']`. */
  datatype Statistics = Statistics(
    totalSections: nat, provisions: nat, preambles: nat, metadata: nat,
    withSummaries: nat, withImpacts: nat)

  /** `metadata`. `pdfPath` is `None` when no PDF sits beside the bill. */
  datatype Metadata = Metadata(title: string, slug: string, pdfPath: Option<string>, processedAt: string, statistics: Statistics)

  /** The whole JSON document; each `Option` is a key that may be absent. */
  datatype BillData = BillData(
    sections: seq<Section>,
    executiveSummary: Option<string>,
    impactAnalyses: Option<map<string, TopicAnalysis>>,
    keyConcerns: Option<seq<Concern>>,
    metadata: Option<Metadata>)

  /** `section.get('category', {}).get('type', default)`. */
  function CategoryType(s: Section, default: string): string {
    if s.category.Some? then s.category.value.kind.Name() else default
  }

  /** `section.get('category', {}).get('type') == 'provision'`. */
  predicate IsProvision(s: Section) {
    s.category.Some? && s.category.value.kind == ProvisionKind
  }

  /** The tests `CategoryType(s, default) == 'provision'` of stages 4, 6 and 10
      select exactly the provisions, whatever the default (as long as it is not
      itself `'provision'`). */
  lemma ProvisionTest(s: Section, default: string)
    requires default != CATEGORY_PROVISION
    ensures CategoryType(s, default) == CATEGORY_PROVISION <==> IsProvision(s)
  {
    if s.category.Some? && !IsProvision(s) {
      assert CATEGORY_PREAMBLE[2] != CATEGORY_PROVISION[2];
      assert CATEGORY_METADATA[0] != CATEGORY_PROVISION[0];
    }
  }

  /** `provisions = [s for s in sections if s.get('category', {}).get('type') == 'provision']`. */
  function Provisions(secs: seq<Section>): (r: seq<Section>)
    ensures |r| <= |secs|
    ensures forall s :: s in r ==> IsProvision(s)
  {
    if secs == [] then []
    else Provisions(secs[..|secs| - 1]) + (if IsProvision(secs[|secs| - 1]) then [secs[|secs| - 1]] else [])
  }

  /** The provisions are the sections that are provisions; so there are
      none only when no section is one. */
  lemma {:induction false} ProvisionsMembers(secs: seq<Section>)
    ensures forall s :: s in Provisions(secs) <==> s in secs && IsProvision(s)
    ensures Provisions(secs) == [] <==> forall j :: 0 <= j < |secs| ==> !IsProvision(secs[j])
  {
    if secs != [] {
      var init := secs[..|secs| - 1];
      ProvisionsMembers(init);
      assert secs == init + [secs[|secs| - 1]];
    }
  }

  /** The filter keeps order: the provisions of a concatenation are those of
      each part, one after the other. */
  lemma {:induction false} ProvisionsAppend(a: seq<Section>, b: seq<Section>)
    ensures Provisions(a + b) == Provisions(a) + Provisions(b)
    decreases |b|
  {
    if b == [] {
      assert a + b == a;
    } else {
      var b' := b[..|b| - 1];
      var last := b[|b| - 1];
      var tail := if IsProvision(last) then [last] else [];
      ProvisionsAppend(a, b');
      assert (a + b)[..|a + b| - 1] == a + b';
      assert (a + b)[|a + b| - 1] == last;
      assert Provisions(a + b) == Provisions(a + b') + tail;
      assert Provisions(b) == Provisions(b') + tail;
    }
  }

  /** A single section is kept exactly when it is a provision. */
  lemma ProvisionsOfOne(s: Section)
    ensures Provisions([s]) == if IsProvision(s) then [s] else []
  {
    assert [s][..0] == [];
  }

  /** `levels.get(topic, 'none')`. */
  function LevelOf(levels: seq<(string, string)>, topic: string): (r: string)
    ensures r == NONE || exists i :: 0 <= i < |levels| && levels[i] == (topic, r)
  {
    if levels == [] then NONE
    else if levels[0].0 == topic then levels[0].1
    else LevelOf(levels[1..], topic)
  }

  /** In a level object with distinct keys, looking a key up finds its own value. */
  lemma {:induction false} LevelOfDistinctKeys(levels: seq<(string, string)>, j: nat)
    requires j < |levels|
    requires forall a, b :: 0 <= a < b < |levels| ==> levels[a].0 != levels[b].0
    ensures LevelOf(levels, levels[j].0) == levels[j].1
  {
    if j > 0 {
      assert levels[0].0 != levels[j].0;
      LevelOfDistinctKeys(levels[1..], j - 1);
    }
  }

  /** The context string stages 6, 7 and 8 hand to their annotator: the
      executive summary, or a fixed placeholder when it is absent or empty. */
  const PLACEHOLDER_CONTEXT := "No executive summary available."

  function BillContext(executiveSummary: Option<string>): (r: string)
    ensures executiveSummary.Some? && executiveSummary.value != "" ==> r == executiveSummary.value
    ensures executiveSummary.None? || executiveSummary.value == "" ==> r == PLACEHOLDER_CONTEXT
    ensures r != ""
  {
    if executiveSummary.Some? && executiveSummary.value != "" then executiveSummary.value
    else PLACEHOLDER_CONTEXT
  }

  /** The number of positions at which two equally long lists differ. */
  function DiffCount<T(==)>(a: seq<T>, b: seq<T>): nat
    requires |a| == |b|
  {
    if a == [] then 0 else (if a[0] != b[0] then 1 else 0) + DiffCount(a[1..], b[1..])
  }

  lemma {:induction false} DiffCountSelf<T>(a: seq<T>)
    ensures DiffCount(a, a) == 0
  {
    if a != [] {
      DiffCountSelf(a[1..]);
    }
  }

  /** Overwriting one position adds at most one difference. */
  lemma {:induction false} DiffCountUpdate<T>(a: seq<T>, b: seq<T>, i: nat, x: T)
    requires |a| == |b| && i < |a|
    ensures DiffCount(a[i := x], b) <= DiffCount(a, b) + 1
  {
    if i > 0 {
      assert a[i := x][1..] == a[1..][i - 1 := x];
      DiffCountUpdate(a[1..], b[1..], i - 1, x);
    } else {
      assert a[i := x][1..] == a[1..];
    }
  }

  /** `s` with `f` applied to its first `i` elements: the section list after a
      stage loop has visited `i` sections. */
  function MapPrefix<T>(f: T -> T, s: seq<T>, i: nat): (r: seq<T>)
    requires i <= |s|
    ensures |r| == |s|
    ensures forall j :: 0 <= j < |s| ==> r[j] == if j < i then f(s[j]) else s[j]
  {
    seq(|s|, j requires 0 <= j < |s| => if j < i then f(s[j]) else s[j])
  }

  lemma MapPrefixStep<T>(f: T -> T, s: seq<T>, i: nat)
    requires i < |s|
    ensures MapPrefix(f, s, i + 1) == MapPrefix(f, s, i)[i := f(s[i])]
  {
  }

  /** The bill as held in memory by one run of a script (`bill_data`), with the
      history of what that run's `json.dump` calls left in the file. */
  class Document {
    var sections: seq<Section>
    var executiveSummary: Option<string>
    var impactAnalyses: Option<map<string, TopicAnalysis>>
    var keyConcerns: Option<seq<Concern>>
    var metadata: Option<Metadata>
    /** Every state of the file, oldest first: the state loaded, then one entry per write. */
    ghost var log: seq<BillData>

    function Snapshot(): BillData
      reads this
    {
      BillData(sections, executiveSummary, impactAnalyses, keyConcerns, metadata)
    }

    ghost predicate Valid()
      reads this
    {
      |log| > 0
    }

    /** What the file holds now. */
    ghost function Disk(): BillData
      reads this
      requires Valid()
    {
      log[|log| - 1]
    }

    /** Memory and file agree, as right after `json.load`. */
    ghost predicate Synced()
      reads this
    {
      Valid() && Disk() == Snapshot()
    }

    /** The file differs from memory in at most `k` sections and in nothing
        else: what a crash at this point would lose. */
    ghost predicate UnsavedAtMost(k: nat)
      reads this
    {
      && Valid()
      && |Disk().sections| == |sections|
      && Disk().(sections := sections) == Snapshot()
      && DiffCount(sections, Disk().sections) <= k
    }

    /** `bill_data = json.load(f)`. */
    constructor Load(b: BillData)
      ensures Snapshot() == b && log == [b]
      ensures Synced()
    {
      sections, executiveSummary, impactAnalyses, keyConcerns, metadata :=
        b.sections, b.executiveSummary, b.impactAnalyses, b.keyConcerns, b.metadata;
      log := [b];
    }

    /** `json.dump(bill_data, f)`: the whole document is written. */
    method Save()
      requires Valid()
      modifies this`log
      ensures log == old(log) + [Snapshot()]
      ensures Synced()
    {
      log := log + [Snapshot()];
    }
  }

  lemma SyncedNothingUnsaved(doc: Document)
    requires doc.Synced()
    ensures doc.UnsavedAtMost(0)
  {
    DiffCountSelf(doc.sections);
  }
}
