/** `pipeline/scripts/9_enrich_metadata.py`: add the bill's title, slug, PDF
    path, processing time and section statistics under `metadata`. */
module EnrichMetadata {
  import opened Wrappers
  import opened Text
  import opened Shared
  import opened Bill

  /** `re.match(r'^\d+\.', text)`: a run of digits followed by a dot opens
      the text. */
  predicate HasNumberPrefix(text: string) {
    0 < DigitRun(text) < |text| && text[DigitRun(text)] == '.'
  }

  /** `remove_number_prefix`: `re.sub(r'^\d+\.\s*', '', text)`. */
  function RemoveNumberPrefix(text: string): (r: string)
    ensures |r| <= |text| && r == text[|text| - |r|..]
    ensures !HasNumberPrefix(text) ==> r == text
    ensures HasNumberPrefix(text) ==>
      && |r| < |text| - DigitRun(text)
      && AllSpace(text[DigitRun(text) + 1..|text| - |r|])
      && (r == [] || !IsSpace(r[0]))
  {
    if HasNumberPrefix(text) then
      var tail := text[DigitRun(text) + 1..];
      var r := TrimStart(tail);
      assert tail[..|tail| - |r|] == text[DigitRun(text) + 1..|text| - |r|];
      r
    else text
  }

  lemma {:induction false} DigitRunOfDigits(d: string, rest: string)
    requires AllDigits(d)
    requires rest == [] || !IsDigit(rest[0])
    ensures DigitRun(d + rest) == |d|
  {
    if d != [] {
      assert (d + rest)[1..] == d[1..] + rest;
      DigitRunOfDigits(d[1..], rest);
    } else {
      assert d + rest == rest;
    }
  }

  lemma {:induction false} TrimStartOfSpaces(w: string, rest: string)
    requires AllSpace(w)
    requires rest == [] || !IsSpace(rest[0])
    ensures TrimStart(w + rest) == rest
  {
    if w != [] {
      assert (w + rest)[1..] == w[1..] + rest;
      TrimStartOfSpaces(w[1..], rest);
    } else {
      assert w + rest == rest;
    }
  }

  /** Exactly one prefix goes: digits, a dot and the whitespace after it;
      whatever follows (another number, say) is kept. */
  lemma RemovesOnePrefix(d: string, w: string, rest: string)
    requires d != [] && AllDigits(d) && AllSpace(w)
    requires rest == [] || !IsSpace(rest[0])
    ensures RemoveNumberPrefix(d + "." + w + rest) == rest
  {
    var text := d + "." + w + rest;
    var after := "." + (w + rest);
    assert text == d + after;
    DigitRunOfDigits(d, after);
    assert text[|d|..] == after;
    assert text[|d| + 1..] == after[1..] == w + rest;
    assert HasNumberPrefix(text);
    TrimStartOfSpaces(w, rest);
    assert RemoveNumberPrefix(text) == TrimStart(w + rest);
  }

  /** `extract_bill_title` looks for a preamble whose title is longer than
      ten characters. */
  predicate TitleSource(s: Section) {
    CategoryType(s, "") == CATEGORY_PREAMBLE && |s.title| > 10
  }

  /** `extract_bill_title`: the title of the first such preamble, else `""`. */
  function ExtractBillTitle(secs: seq<Section>): (r: string)
    ensures r == "" <==> forall j :: 0 <= j < |secs| ==> !TitleSource(secs[j])
    ensures r != "" ==> exists j :: 0 <= j < |secs| && TitleSource(secs[j]) && r == secs[j].title &&
                                    forall i :: 0 <= i < j ==> !TitleSource(secs[i])
  {
    if secs == [] then ""
    else if TitleSource(secs[0]) then secs[0].title
    else
      var r := ExtractBillTitle(secs[1..]);
      assert forall j :: 0 < j < |secs| ==> secs[1..][j - 1] == secs[j];
      assert r != "" ==> exists j :: 0 <= j < |secs[1..]| && TitleSource(secs[1..][j]) && r == secs[1..][j].title &&
                                    forall i :: 0 <= i < j ==> !TitleSource(secs[1..][i]);
      assert r != "" ==> exists j :: 1 <= j < |secs| && TitleSource(secs[j]) && r == secs[j].title &&
                                    forall i :: 0 <= i < j ==> !TitleSource(secs[i]);
      r
  }

  /** `stats` after the counting loop has seen `secs`, `total` being
      `len(sections)`. */
  function Tallied(total: nat, secs: seq<Section>): Statistics {
    if secs == [] then Statistics(total, 0, 0, 0, 0, 0)
    else Count(Tallied(total, secs[..|secs| - 1]), secs[|secs| - 1])
  }

  /** One iteration of the counting loop. */
  function Count(st: Statistics, s: Section): Statistics {
    var kind := CategoryType(s, "");
    var st := if kind == CATEGORY_PROVISION then st.(provisions := st.provisions + 1)
              else if kind == CATEGORY_PREAMBLE then st.(preambles := st.preambles + 1)
              else if kind == CATEGORY_METADATA then st.(metadata := st.metadata + 1)
              else st;
    var st := if s.summary.Some? && s.summary.value != "" then st.(withSummaries := st.withSummaries + 1) else st;
    if s.legacyImpacts then st.(withImpacts := st.withImpacts + 1) else st
  }

  /** `calculate_statistics`. */
  method CalculateStatistics(sections: seq<Section>) returns (stats: Statistics)
    ensures stats == Tallied(|sections|, sections)
  {
    stats := Statistics(|sections|, 0, 0, 0, 0, 0);
    var i := 0;
    while i < |sections|
      invariant 0 <= i <= |sections|
      invariant stats == Tallied(|sections|, sections[..i])
    {
      var s := sections[i];
      assert sections[..i + 1][..i] == sections[..i];
      ghost var before := stats;
      var kind := CategoryType(s, "");
      if kind == CATEGORY_PROVISION {
        stats := stats.(provisions := stats.provisions + 1);
      } else if kind == CATEGORY_PREAMBLE {
        stats := stats.(preambles := stats.preambles + 1);
      } else if kind == CATEGORY_METADATA {
        stats := stats.(metadata := stats.metadata + 1);
      }
      if s.summary.Some? && s.summary.value != "" {
        stats := stats.(withSummaries := stats.withSummaries + 1);
      }
      if s.legacyImpacts {
        stats := stats.(withImpacts := stats.withImpacts + 1);
      }
      assert stats == Count(before, s);
      i := i + 1;
    }
    assert sections[..i] == sections;
  }

  /** Telling the three category names apart. */
  lemma KindNames(k: Kind)
    ensures k.Name() == CATEGORY_PROVISION <==> k == ProvisionKind
    ensures k.Name() == CATEGORY_PREAMBLE <==> k == PreambleKind
    ensures k.Name() == CATEGORY_METADATA <==> k == MetadataKind
  {
    assert CATEGORY_PREAMBLE[2] != CATEGORY_PROVISION[2];
    assert CATEGORY_METADATA[0] != CATEGORY_PROVISION[0];
    assert CATEGORY_METADATA[0] != CATEGORY_PREAMBLE[0];
  }

  /** What one iteration adds: one to the provision counter for a provision,
      one to the three category counters together for a categorised
      section, and at most one to the others. */
  lemma CountEffect(st: Statistics, s: Section)
    ensures Count(st, s).totalSections == st.totalSections
    ensures Count(st, s).provisions == st.provisions + (if IsProvision(s) then 1 else 0)
    ensures Count(st, s).provisions + Count(st, s).preambles + Count(st, s).metadata
         == st.provisions + st.preambles + st.metadata + (if s.category.Some? then 1 else 0)
    ensures Count(st, s).withSummaries <= st.withSummaries + 1
    ensures Count(st, s).withImpacts <= st.withImpacts + 1
  {
    if s.category.Some? {
      KindNames(s.category.value.kind);
    }
    ProvisionTest(s, "");
  }

  /** The counters never exceed the number of sections seen; the three
      category counters add up to it exactly when every section carries a
      category; and the provision counter is the number of provisions. */
  lemma {:induction false} TalliedBounds(total: nat, secs: seq<Section>)
    ensures var st := Tallied(total, secs);
      && st.totalSections == total
      && st.provisions + st.preambles + st.metadata <= |secs|
      && st.withSummaries <= |secs| && st.withImpacts <= |secs|
      && (st.provisions + st.preambles + st.metadata == |secs| <==> forall j :: 0 <= j < |secs| ==> secs[j].category.Some?)
      && st.provisions == |Provisions(secs)|
  {
    if secs != [] {
      var init := secs[..|secs| - 1];
      var last := secs[|secs| - 1];
      TalliedBounds(total, init);
      var st := Tallied(total, init);
      CountEffect(st, last);
      if st.provisions + st.preambles + st.metadata == |init| {
        assert forall j :: 0 <= j < |init| ==> init[j] == secs[j];
      } else {
        var j :| 0 <= j < |init| && init[j].category.None?;
        assert secs[j].category.None?;
      }
    }
  }

  /** `calculate_statistics` counts the key `impacts`, which no stage writes:
      on sections without it the counter stays 0. */
  lemma {:induction false} NoLegacyImpactsCounted(total: nat, secs: seq<Section>)
    requires forall j :: 0 <= j < |secs| ==> !secs[j].legacyImpacts
    ensures Tallied(total, secs).withImpacts == 0
  {
    if secs != [] {
      assert forall j :: 0 <= j < |secs| - 1 ==> secs[..|secs| - 1][j] == secs[j];
      NoLegacyImpactsCounted(total, secs[..|secs| - 1]);
    }
  }

  /** The statistics block written for the section list `secs`. */
  lemma StatisticsOfSections(secs: seq<Section>)
    ensures var st := Tallied(|secs|, secs);
      && st.totalSections == |secs|
      && st.provisions <= st.totalSections && st.preambles <= st.totalSections && st.metadata <= st.totalSections
      && st.withSummaries <= st.totalSections && st.withImpacts <= st.totalSections
  {
    TalliedBounds(|secs|, secs);
  }

  /** `f'pdfs/{pdf_name}' if pdf_path.exists() else None`. */
  function PdfPath(stem: string, pdfExists: bool): Option<string> {
    if pdfExists then Some("pdfs/" + stem + ".pdf") else None
  }

  /** The title drops the bill number the slug keeps. */
  lemma TitleAndSlug(stem: string)
    requires HasNumberPrefix(stem)
    ensures |RemoveNumberPrefix(stem)| < |stem| - DigitRun(stem)
    ensures |Slugify(stem)| >= DigitRun(stem) && Slugify(stem)[..DigitRun(stem)] == stem[..DigitRun(stem)]
  {
    var k := DigitRun(stem);
    assert stem == stem[..k] + stem[k..];
    SlugKeepsLeadingWord(stem[..k], stem[k..]);
  }

  /** The `metadata` dictionary: the title drops the bill number, the slug
      keeps it. */
  function BuildMetadata(stem: string, pdfExists: bool, processedAt: string, stats: Statistics): Metadata {
    Metadata(RemoveNumberPrefix(stem), Slugify(stem), PdfPath(stem, pdfExists), processedAt, stats)
  }

  datatype Outcome =
    | AlreadyPresent            // the key exists and `force` is off
    | NoSections
    | Written(metadata: Metadata)

  /** `enrich_metadata`, with `stem` the file name without extension;
      whether the PDF exists and the current time are inputs. */
  method EnrichMetadata(doc: Document, stem: string, pdfExists: bool, processedAt: string, force: bool)
    returns (r: Outcome)
    requires doc.Synced()
    modifies doc`metadata, doc`log
    ensures old(doc.metadata).Some? && !force ==> r == AlreadyPresent
    ensures (old(doc.metadata).None? || force) && doc.sections == [] ==> r == NoSections
    ensures (old(doc.metadata).None? || force) && doc.sections != [] ==>
      r == Written(BuildMetadata(stem, pdfExists, processedAt, Tallied(|doc.sections|, doc.sections)))
    ensures r.Written? ==> doc.metadata == Some(r.metadata) && doc.log == old(doc.log) + [doc.Snapshot()]
    ensures !r.Written? ==> doc.metadata == old(doc.metadata) && doc.log == old(doc.log)
    ensures doc.Synced()
  {
    if doc.metadata.Some? && !force {
      return AlreadyPresent;
    }
    if doc.sections == [] {
      return NoSections;
    }
    var m := ComputeMetadata(doc.sections, stem, pdfExists, processedAt);
    Store(doc, m);
    return Written(m);
  }

  /** `calculate_statistics` and the `metadata` dictionary. */
  method ComputeMetadata(sections: seq<Section>, stem: string, pdfExists: bool, processedAt: string) returns (m: Metadata)
    ensures m == BuildMetadata(stem, pdfExists, processedAt, Tallied(|sections|, sections))
  {
    var stats := CalculateStatistics(sections);
    m := BuildMetadata(stem, pdfExists, processedAt, stats);
  }

  /** `bill_data['metadata'] = metadata` and the write-back. */
  method Store(doc: Document, m: Metadata)
    requires doc.Synced()
    modifies doc`metadata, doc`log
    ensures doc.metadata == Some(m) && doc.log == old(doc.log) + [doc.Snapshot()]
    ensures doc.Synced()
  {
    doc.metadata := Some(m);
    doc.Save();
  }
}
