/** `pipeline/scripts/8_generate_key_concerns.py`: one key concern per
    provision rated severe-negative or high-negative on some topic, ranked by
    severity. */
module KeyConcerns {
  import opened Wrappers
  import opened Shared
  import opened Bill
  import StableSort

  /** `provision_data` with the chosen `impact_level` and `topic`: one element
      of `severe_provisions` or `high_provisions`. */
  datatype Candidate = Candidate(
    id: string, title: string, rawText: string, summary: string,
    reasoning: string, confidence: real, level: string, topic: Topic)

  /** `impact.get('confidence', 0.5)`. */
  const DEFAULT_CONFIDENCE: real := 0.5

  /** The first topic, among the first `k` of `TOPICS`, that `levels` rates
      `level`; this is what the `not severe_impact` / `not high_impact` tests
      of the topic loop keep. */
  function FirstRated(levels: seq<(string, string)>, level: string, k: nat): (r: Option<Topic>)
    requires k <= |ALL_TOPICS|
    ensures r.Some? ==> r.value.Index() < k && LevelOf(levels, r.value.Name()) == level
    ensures r.Some? ==> forall t: Topic :: t.Index() < r.value.Index() ==> LevelOf(levels, t.Name()) != level
    ensures r.None? ==> forall t: Topic :: t.Index() < k ==> LevelOf(levels, t.Name()) != level
  {
    if k == 0 then None
    else
      var prev := FirstRated(levels, level, k - 1);
      IndexOfListed(k - 1);
      if prev.Some? then prev
      else if LevelOf(levels, ALL_TOPICS[k - 1].Name()) == level then Some(ALL_TOPICS[k - 1])
      else None
  }

  /** One more topic of the `TOPICS` loop. */
  lemma FirstRatedNext(levels: seq<(string, string)>, level: string, k: nat)
    requires k < |ALL_TOPICS|
    ensures FirstRated(levels, level, k + 1) ==
      if FirstRated(levels, level, k).Some? then FirstRated(levels, level, k)
      else if LevelOf(levels, ALL_TOPICS[k].Name()) == level then Some(ALL_TOPICS[k])
      else None
  {
  }

  /** The inner `for topic in TOPICS` loop: the first topic rated
      severe-negative and the first rated high-negative. */
  method FindImpacts(levels: seq<(string, string)>) returns (severe: Option<Topic>, high: Option<Topic>)
    ensures severe == FirstRated(levels, SEVERE_NEGATIVE, |ALL_TOPICS|)
    ensures high == FirstRated(levels, HIGH_NEGATIVE, |ALL_TOPICS|)
  {
    severe, high := None, None;
    var k := 0;
    while k < |ALL_TOPICS|
      invariant 0 <= k <= |ALL_TOPICS|
      invariant severe == FirstRated(levels, SEVERE_NEGATIVE, k)
      invariant high == FirstRated(levels, HIGH_NEGATIVE, k)
    {
      var topic := ALL_TOPICS[k];
      var level := LevelOf(levels, topic.Name());
      var isSevere, isHigh := level == SEVERE_NEGATIVE, level == HIGH_NEGATIVE;
      assert !(isSevere && isHigh) by { assert SEVERE_NEGATIVE[0] != HIGH_NEGATIVE[0]; }
      FirstRatedNext(levels, SEVERE_NEGATIVE, k);
      FirstRatedNext(levels, HIGH_NEGATIVE, k);
      if isSevere && severe.None? {
        severe := Some(topic);
      } else if isHigh && high.None? {
        high := Some(topic);
      }
      k := k + 1;
    }
  }

  /** The topic and level section `s` is a candidate for: its first
      severe-negative topic, else its first high-negative one. Sections that
      are not provisions, or carry no impact, are skipped. */
  function Pick(s: Section): Option<(Topic, string)> {
    if !IsProvision(s) || s.impact.None? then None
    else
      var levels := s.impact.value.levels;
      var severe := FirstRated(levels, SEVERE_NEGATIVE, |ALL_TOPICS|);
      var high := FirstRated(levels, HIGH_NEGATIVE, |ALL_TOPICS|);
      if severe.Some? then Some((severe.value, SEVERE_NEGATIVE))
      else if high.Some? then Some((high.value, HIGH_NEGATIVE))
      else None
  }

  /** What `Pick` chooses: a provision with an impact is picked exactly when
      some topic is rated severe-negative or high-negative; the pick is the
      first severe-negative topic in `TOPICS` order if there is one, and
      otherwise the first high-negative one. */
  lemma PickChoosesFirstWorst(s: Section)
    ensures Pick(s).Some? <==>
      IsProvision(s) && s.impact.Some? &&
      exists t: Topic :: LevelOf(s.impact.value.levels, t.Name()) in {SEVERE_NEGATIVE, HIGH_NEGATIVE}
    ensures Pick(s).Some? ==> var (t, level) := Pick(s).value;
      && LevelOf(s.impact.value.levels, t.Name()) == level
      && (level == SEVERE_NEGATIVE ==>
            forall u: Topic :: u.Index() < t.Index() ==> LevelOf(s.impact.value.levels, u.Name()) != SEVERE_NEGATIVE)
      && (level == HIGH_NEGATIVE ==>
            (forall u: Topic :: LevelOf(s.impact.value.levels, u.Name()) != SEVERE_NEGATIVE) &&
            (forall u: Topic :: u.Index() < t.Index() ==> LevelOf(s.impact.value.levels, u.Name()) != HIGH_NEGATIVE))
      && (level == SEVERE_NEGATIVE || level == HIGH_NEGATIVE)
  {
    if IsProvision(s) && s.impact.Some? {
      var levels := s.impact.value.levels;
      if Pick(s).None? {
        forall t: Topic ensures LevelOf(levels, t.Name()) !in {SEVERE_NEGATIVE, HIGH_NEGATIVE} {
          assert t.Index() < |ALL_TOPICS|;
        }
      } else {
        var t := Pick(s).value.0;
        assert LevelOf(levels, t.Name()) in {SEVERE_NEGATIVE, HIGH_NEGATIVE};
      }
    }
  }

  function Confidence(s: Section): real
    requires s.impact.Some?
  {
    s.impact.value.confidence.GetOr(DEFAULT_CONFIDENCE)
  }

  /** The dictionary appended for section `s`, picked for `topic` at `level`. */
  function CandidateFor(s: Section, topic: Topic, level: string): Candidate
    requires s.impact.Some?
  {
    Candidate(s.id, s.title, s.rawText, s.summary.GetOr(""), s.impact.value.reasoning, Confidence(s), level, topic)
  }

  /** Whether section `s` is picked at `band`. */
  predicate PickedAt(s: Section, band: string) {
    Pick(s).Some? && Pick(s).value.1 == band
  }

  /** `severe_provisions` (band severe-negative) or `high_provisions` (band
      high-negative) after the loop over `secs`, before any sorting. */
  function Band(secs: seq<Section>, band: string): seq<Candidate> {
    if secs == [] then []
    else
      var last := secs[|secs| - 1];
      Band(secs[..|secs| - 1], band) +
        (if PickedAt(last, band) then [CandidateFor(last, Pick(last).value.0, band)] else [])
  }

  /** The number of sections of `secs` picked at `band`. */
  function CountPicked(secs: seq<Section>, band: string): nat {
    if secs == [] then 0
    else CountPicked(secs[..|secs| - 1], band) + (if PickedAt(secs[|secs| - 1], band) then 1 else 0)
  }

  /** The number of sections of `secs` picked at all. */
  function CountAnyPicked(secs: seq<Section>): nat {
    if secs == [] then 0
    else CountAnyPicked(secs[..|secs| - 1]) + (if Pick(secs[|secs| - 1]).Some? then 1 else 0)
  }

  /** Sort key of `high_provisions.sort(key=confidence, reverse=True)`. */
  function NegatedConfidence(c: Candidate): real {
    -c.confidence
  }

  /** `impactful_provisions = severe_provisions + high_provisions`, the latter
      sorted by confidence, highest first. */
  function Impactful(secs: seq<Section>): seq<Candidate> {
    Band(secs, SEVERE_NEGATIVE) + StableSort.Sort(Band(secs, HIGH_NEGATIVE), NegatedConfidence)
  }

  /** A band holds one candidate per section picked at it, in section order:
      the picked section `j` sits at position "picked sections before `j`". */
  lemma {:induction false} BandAt(secs: seq<Section>, band: string, j: nat)
    requires j < |secs| && PickedAt(secs[j], band)
    ensures |Band(secs, band)| == CountPicked(secs, band)
    ensures CountPicked(secs[..j], band) < |Band(secs, band)|
    ensures Band(secs, band)[CountPicked(secs[..j], band)] == CandidateFor(secs[j], Pick(secs[j]).value.0, band)
  {
    var init := secs[..|secs| - 1];
    BandLength(secs, band);
    if j < |secs| - 1 {
      assert init[..j] == secs[..j];
      BandAt(init, band, j);
    } else {
      assert secs[..j] == init;
      BandLength(init, band);
    }
  }

  /** Every candidate in a band is at that band's level, on its chosen topic. */
  lemma {:induction false} BandLength(secs: seq<Section>, band: string)
    ensures |Band(secs, band)| == CountPicked(secs, band)
    ensures forall c :: c in Band(secs, band) ==> c.level == band
  {
    if secs != [] {
      BandLength(secs[..|secs| - 1], band);
    }
  }

  /** Each section is a candidate at most once: the two bands together hold
      as many candidates as there are picked sections, and no more than there
      are provisions. */
  lemma {:induction false} OneCandidatePerProvision(secs: seq<Section>)
    ensures CountPicked(secs, SEVERE_NEGATIVE) + CountPicked(secs, HIGH_NEGATIVE) == CountAnyPicked(secs)
    ensures CountAnyPicked(secs) <= |Provisions(secs)|
  {
    if secs != [] {
      var last := secs[|secs| - 1];
      OneCandidatePerProvision(secs[..|secs| - 1]);
      PickChoosesFirstWorst(last);
      assert SEVERE_NEGATIVE[0] != HIGH_NEGATIVE[0];
    }
  }

  /** `impactful_provisions` holds every severe candidate, in section order,
      ahead of every high candidate; the high candidates are the high band
      reordered by confidence, highest first, keeping section order among
      equal confidences. */
  lemma ImpactfulOrder(secs: seq<Section>, k: real)
    ensures |Impactful(secs)| == CountPicked(secs, SEVERE_NEGATIVE) + CountPicked(secs, HIGH_NEGATIVE) == CountAnyPicked(secs)
    ensures forall i :: 0 <= i < |Impactful(secs)| ==>
      (Impactful(secs)[i].level == SEVERE_NEGATIVE <==> i < CountPicked(secs, SEVERE_NEGATIVE))
    ensures Impactful(secs)[..CountPicked(secs, SEVERE_NEGATIVE)] == Band(secs, SEVERE_NEGATIVE)
    ensures var high := Impactful(secs)[CountPicked(secs, SEVERE_NEGATIVE)..];
      && multiset(high) == multiset(Band(secs, HIGH_NEGATIVE))
      && (forall i, j :: 0 <= i < j < |high| ==> high[i].confidence >= high[j].confidence)
      && StableSort.WithKey(high, NegatedConfidence, k) == StableSort.WithKey(Band(secs, HIGH_NEGATIVE), NegatedConfidence, k)
  {
    var sev := Band(secs, SEVERE_NEGATIVE);
    var hb := Band(secs, HIGH_NEGATIVE);
    var high := StableSort.Sort(hb, NegatedConfidence);
    BandLength(secs, SEVERE_NEGATIVE);
    BandLength(secs, HIGH_NEGATIVE);
    OneCandidatePerProvision(secs);
    StableSort.SortSorted(hb, NegatedConfidence);
    StableSort.SortStable(hb, NegatedConfidence, k);
    assert Impactful(secs) == sev + high;
    assert (sev + high)[..|sev|] == sev;
    assert (sev + high)[|sev|..] == high;
    forall i, j | 0 <= i < j < |high| ensures high[i].confidence >= high[j].confidence {
      assert NegatedConfidence(high[i]) <= NegatedConfidence(high[j]);
    }
    forall i | 0 <= i < |sev + high|
      ensures (sev + high)[i].level == SEVERE_NEGATIVE <==> i < |sev|
    {
      if i >= |sev| {
        assert (sev + high)[i] == high[i - |sev|];
        assert high[i - |sev|] in multiset(hb);
        assert SEVERE_NEGATIVE[0] != HIGH_NEGATIVE[0];
      } else {
        assert (sev + high)[i] == sev[i];
      }
    }
  }

  /** The collecting loop of `process_bill` (`severe_provisions`,
      `high_provisions`). */
  method CollectCandidates(sections: seq<Section>) returns (severe: seq<Candidate>, high: seq<Candidate>)
    ensures severe == Band(sections, SEVERE_NEGATIVE)
    ensures high == Band(sections, HIGH_NEGATIVE)
  {
    severe, high := [], [];
    var i := 0;
    while i < |sections|
      invariant 0 <= i <= |sections|
      invariant severe == Band(sections[..i], SEVERE_NEGATIVE)
      invariant high == Band(sections[..i], HIGH_NEGATIVE)
    {
      var s := sections[i];
      assert sections[..i + 1][..i] == sections[..i];
      if s.category.Some? && s.category.value.kind == ProvisionKind && s.impact.Some? {
        var severeTopic, highTopic := FindImpacts(s.impact.value.levels);
        if severeTopic.Some? {
          severe := severe + [CandidateFor(s, severeTopic.value, SEVERE_NEGATIVE)];
        } else if highTopic.Some? {
          high := high + [CandidateFor(s, highTopic.value, HIGH_NEGATIVE)];
        }
      }
      assert SEVERE_NEGATIVE[0] != HIGH_NEGATIVE[0];
      i := i + 1;
    }
    assert sections[..i] == sections;
  }

  /** The answer of the concern model: title, markdown description, severity. */
  datatype ConcernText = ConcernText(title: string, description: string, severity: Severity)

  /** The model call inside `generate_key_concern`: (bill context, topic name,
      candidate) to its answer, or an exception. */
  type ConcernWriter = (string, string, Candidate) -> Result<ConcernText>

  /** The dictionary `generate_key_concern` returns. */
  function ToConcern(t: ConcernText, c: Candidate): Concern {
    Concern(Slugify(t.title), t.title, t.severity.Name(), t.description, [c.id])
  }

  /** `key_concerns` after the generating loop over `cands`, or the first
      exception it raised. */
  function Concerns(context: string, cands: seq<Candidate>, write: ConcernWriter): Result<seq<Concern>> {
    if cands == [] then Success([])
    else
      var last := cands[|cands| - 1];
      match Concerns(context, cands[..|cands| - 1], write)
      case Failure(e) => Failure(e)
      case Success(cs) =>
        match write(context, last.topic.Name(), last)
        case Failure(e) => Failure(e)
        case Success(t) => Success(cs + [ToConcern(t, last)])
  }

  /** One concern per candidate, in candidate order: each concern relates
      exactly its own provision, its id is the slug of its title, and its
      severity is one of the four `Severity` values. */
  lemma {:induction false} ConcernsShape(context: string, cands: seq<Candidate>, write: ConcernWriter)
    requires Concerns(context, cands, write).Success?
    ensures var cs := Concerns(context, cands, write).value;
      && |cs| == |cands|
      && (forall i :: 0 <= i < |cs| ==> cs[i].relatedProvisions == [cands[i].id])
      && (forall i :: 0 <= i < |cs| ==> cs[i].id == Slugify(cs[i].title) && IsSlug(cs[i].id))
      && (forall i :: 0 <= i < |cs| ==> SeverityOrder(cs[i].severity) <= 3)
  {
    ConcernAt(context, cands, write, 0);
    var cs := Concerns(context, cands, write).value;
    forall i | 0 <= i < |cs|
      ensures cs[i].relatedProvisions == [cands[i].id]
      ensures cs[i].id == Slugify(cs[i].title) && SeverityOrder(cs[i].severity) <= 3
    {
      ConcernAt(context, cands, write, i);
      var t :| cs[i] == ToConcern(t, cands[i]);
      ToConcernShape(t, cands[i]);
    }
  }

  /** The concern at position `i` is made from candidate `i`. */
  lemma {:induction false} ConcernAt(context: string, cands: seq<Candidate>, write: ConcernWriter, i: nat)
    requires Concerns(context, cands, write).Success?
    ensures |Concerns(context, cands, write).value| == |cands|
    ensures i < |cands| ==> exists t :: Concerns(context, cands, write).value[i] == ToConcern(t, cands[i])
  {
    if cands != [] {
      var init := cands[..|cands| - 1];
      var last := cands[|cands| - 1];
      ConcernAt(context, init, write, i);
      var cs := Concerns(context, init, write).value;
      var t := write(context, last.topic.Name(), last).value;
      assert Concerns(context, cands, write).value == cs + [ToConcern(t, last)];
      if i < |init| {
        var u :| cs[i] == ToConcern(u, init[i]);
        assert (cs + [ToConcern(t, last)])[i] == ToConcern(u, cands[i]);
      } else if i == |init| {
        assert (cs + [ToConcern(t, last)])[i] == ToConcern(t, cands[i]);
      }
    }
  }

  /** What every generated concern looks like. */
  lemma ToConcernShape(t: ConcernText, c: Candidate)
    ensures ToConcern(t, c).relatedProvisions == [c.id]
    ensures ToConcern(t, c).id == Slugify(ToConcern(t, c).title) && IsSlug(ToConcern(t, c).id)
    ensures SeverityOrder(ToConcern(t, c).severity) <= 3
  {
    SeverityRanked(t.severity);
  }

  /** The generating loop of `process_bill`. */
  method GenerateAll(context: string, cands: seq<Candidate>, write: ConcernWriter) returns (r: Result<seq<Concern>>)
    ensures r == Concerns(context, cands, write)
  {
    var acc: seq<Concern> := [];
    var i := 0;
    while i < |cands|
      invariant 0 <= i <= |cands|
      invariant Concerns(context, cands[..i], write) == Success(acc)
    {
      var c := cands[i];
      assert cands[..i + 1][..i] == cands[..i];
      var res := write(context, c.topic.Name(), c);
      if res.Failure? {
        ConcernsStop(context, cands, write, i + 1);
        return Failure(res.error);
      }
      acc := acc + [ToConcern(res.value, c)];
      i := i + 1;
    }
    assert cands[..i] == cands;
    return Success(acc);
  }

  /** Once a call has raised, the later candidates do not change the outcome. */
  lemma {:induction false} ConcernsStop(context: string, cands: seq<Candidate>, write: ConcernWriter, i: nat)
    requires i <= |cands|
    requires Concerns(context, cands[..i], write).Failure?
    ensures Concerns(context, cands, write) == Concerns(context, cands[..i], write)
    decreases |cands| - i
  {
    if i < |cands| {
      assert cands[..i + 1][..i] == cands[..i];
      ConcernsStop(context, cands, write, i + 1);
    } else {
      assert cands[..i] == cands;
    }
  }

  /** `severity_order.get(severity, 99)`. */
  function SeverityOrder(severity: string): int {
    if severity == "critical" then 0
    else if severity == "high" then 1
    else if severity == "medium" then 2
    else if severity == "low" then 3
    else 99
  }

  /** The four severities rank critical < high < medium < low. */
  lemma SeverityRanked(s: Severity)
    ensures SeverityOrder(s.Name()) == match s
      case Critical => 0
      case High => 1
      case Medium => 2
      case Low => 3
  {
  }

  /** Sort key of `key_concerns.sort(...)`. */
  function BySeverity(c: Concern): real {
    SeverityOrder(c.severity) as real
  }

  /** The concerns as ranked for saving. */
  function Ranked(cs: seq<Concern>): seq<Concern> {
    StableSort.Sort(cs, BySeverity)
  }

  /** The ranking keeps every concern, orders them critical, high, medium,
      low (unknown severities last), and keeps generation order within a
      severity. */
  lemma RankedOrder(cs: seq<Concern>, k: real)
    ensures multiset(Ranked(cs)) == multiset(cs)
    ensures forall i, j :: 0 <= i < j < |Ranked(cs)| ==> SeverityOrder(Ranked(cs)[i].severity) <= SeverityOrder(Ranked(cs)[j].severity)
    ensures StableSort.WithKey(Ranked(cs), BySeverity, k) == StableSort.WithKey(cs, BySeverity, k)
  {
    StableSort.SortSorted(cs, BySeverity);
    StableSort.SortStable(cs, BySeverity, k);
    var r := Ranked(cs);
    forall i, j | 0 <= i < j < |r| ensures SeverityOrder(r[i].severity) <= SeverityOrder(r[j].severity) {
      assert BySeverity(r[i]) <= BySeverity(r[j]);
    }
  }

  datatype Outcome =
    | AlreadyPresent                   // the key exists and `force` is off
    | NoSections
    | Cleared                          // no candidate: `keyConcerns` set to `[]` and saved
    | Raised(error: string)            // the concern model raised
    | DryRun(concerns: seq<Concern>)   // generated and ranked but not stored
    | Written(concerns: seq<Concern>)

  /** What `process_bill` does once past the `keyConcerns` check: stop on no
      sections, clear the concerns when no provision is a candidate, raise with
      the concern model, or rank the generated concerns. */
  function Planned(secs: seq<Section>, context: string, dryRun: bool, write: ConcernWriter): Outcome {
    if secs == [] then NoSections
    else if Impactful(secs) == [] then Cleared
    else
      match Concerns(context, Impactful(secs), write)
      case Failure(e) => Raised(e)
      case Success(cs) => if dryRun then DryRun(Ranked(cs)) else Written(Ranked(cs))
  }

  /** The part of `process_bill` after the `keyConcerns` check, up to the
      write: collect the candidates, order them, generate one concern each and
      rank the concerns by severity. */
  method PlanConcerns(sections: seq<Section>, context: string, dryRun: bool, write: ConcernWriter)
    returns (r: Outcome)
    ensures r == Planned(sections, context, dryRun, write)
  {
    if sections == [] {
      return NoSections;
    }
    var severe, high := CollectCandidates(sections);
    high := StableSort.Sort(high, NegatedConfidence);
    var impactful := severe + high;
    if impactful == [] {
      return Cleared;
    }
    var concerns := GenerateAll(context, impactful, write);
    if concerns.Failure? {
      return Raised(concerns.error);
    }
    var ranked := StableSort.Sort(concerns.value, BySeverity);
    if dryRun {
      return DryRun(ranked);
    }
    return Written(ranked);
  }

  /** `process_bill`. */
  method GenerateKeyConcerns(doc: Document, dryRun: bool, force: bool, write: ConcernWriter)
    returns (r: Outcome)
    requires doc.Synced()
    modifies doc`keyConcerns, doc`log
    ensures old(doc.keyConcerns).Some? && !force ==> r == AlreadyPresent
    ensures old(doc.keyConcerns).None? || force ==>
      r == Planned(doc.sections, BillContext(doc.executiveSummary), dryRun, write)
    ensures r.Cleared? ==> doc.keyConcerns == Some([]) && doc.log == old(doc.log) + [doc.Snapshot()]
    ensures r.Written? ==> doc.keyConcerns == Some(r.concerns) && doc.log == old(doc.log) + [doc.Snapshot()]
    ensures !r.Cleared? && !r.Written? ==> doc.keyConcerns == old(doc.keyConcerns) && doc.log == old(doc.log)
    ensures doc.Synced()
  {
    if doc.keyConcerns.Some? && !force {
      return AlreadyPresent;
    }
    r := PlanConcerns(doc.sections, BillContext(doc.executiveSummary), dryRun, write);
    if r.Cleared? {
      doc.keyConcerns := Some([]);
      doc.Save();
    } else if r.Written? {
      doc.keyConcerns := Some(r.concerns);
      doc.Save();
    }
  }
}
