/** `pipeline/scripts/7_generate_impact_analysis.py`: one analysis per topic,
    over the provisions rated severe or high for it. */
module ImpactAnalysis {
  import opened Wrappers
  import opened Shared
  import opened Bill

  /** One element of `topic_provisions[topic]`. */
  datatype Candidate = Candidate(id: string, title: string, rawText: string, level: string)

  predicate IsSevere(level: string) {
    level == SEVERE_NEGATIVE || level == SEVERE_POSITIVE
  }

  predicate IsHigh(level: string) {
    level == HIGH_NEGATIVE || level == HIGH_POSITIVE
  }

  /** The four levels that make a provision relevant to a topic's analysis. */
  predicate IsSignificant(level: string) {
    IsSevere(level) || IsHigh(level)
  }

  /** No level is both severe and high. */
  lemma BandsDisjoint(level: string)
    ensures !(IsSevere(level) && IsHigh(level))
  {
    if IsSevere(level) {
      assert level[0] == 's';
      assert HIGH_NEGATIVE[0] != 's' && HIGH_POSITIVE[0] != 's';
    }
  }

  /** The level the loop reads for section `s` and `topic`; sections that are
      not provisions, or carry no impact, are skipped, which reads as `'none'`. */
  function LevelIn(s: Section, topic: Topic): string {
    if IsProvision(s) && s.impact.Some? then LevelOf(s.impact.value.levels, topic.Name()) else NONE
  }

  function CandidateOf(s: Section, topic: Topic): Candidate {
    Candidate(s.id, s.title, s.rawText, LevelIn(s, topic))
  }

  /** `topic_provisions[topic]` after the loop over `secs`. */
  function Candidates(secs: seq<Section>, topic: Topic): seq<Candidate> {
    if secs == [] then []
    else
      var last := secs[|secs| - 1];
      Candidates(secs[..|secs| - 1], topic) + (if IsSignificant(LevelIn(last, topic)) then [CandidateOf(last, topic)] else [])
  }

  /** `topic_severe_provisions[topic]` after the loop over `secs`. */
  function SevereIds(secs: seq<Section>, topic: Topic): seq<string> {
    if secs == [] then []
    else
      var last := secs[|secs| - 1];
      SevereIds(secs[..|secs| - 1], topic) + (if IsSevere(LevelIn(last, topic)) then [last.id] else [])
  }

  /** `topic_high_provisions[topic]` after the loop over `secs`. */
  function HighIds(secs: seq<Section>, topic: Topic): seq<string> {
    if secs == [] then []
    else
      var last := secs[|secs| - 1];
      HighIds(secs[..|secs| - 1], topic) + (if IsHigh(LevelIn(last, topic)) then [last.id] else [])
  }

  /** The number of sections of `secs` significant for `topic`. */
  function CountSignificant(secs: seq<Section>, topic: Topic): nat {
    if secs == [] then 0
    else CountSignificant(secs[..|secs| - 1], topic) + (if IsSignificant(LevelIn(secs[|secs| - 1], topic)) then 1 else 0)
  }

  function Ids(cs: seq<Candidate>): seq<string> {
    if cs == [] then [] else Ids(cs[..|cs| - 1]) + [cs[|cs| - 1].id]
  }

  /** `related_provs`: the severe ids if there are any, else the high ones. */
  function Related(secs: seq<Section>, topic: Topic): seq<string> {
    if SevereIds(secs, topic) != [] then SevereIds(secs, topic) else HighIds(secs, topic)
  }

  /** The candidates for a topic are exactly the significant sections, in
      section order: significant section `j` is candidate number "significant
      sections before `j`", and each candidate carries its section's level. */
  lemma {:induction false} CandidatesAt(secs: seq<Section>, topic: Topic, j: nat)
    requires j < |secs| && IsSignificant(LevelIn(secs[j], topic))
    ensures |Candidates(secs, topic)| == CountSignificant(secs, topic)
    ensures CountSignificant(secs[..j], topic) < |Candidates(secs, topic)|
    ensures Candidates(secs, topic)[CountSignificant(secs[..j], topic)] == CandidateOf(secs[j], topic)
    decreases |secs|, 1
  {
    CandidatesLength(secs, topic);
    if j < |secs| - 1 {
      CandidatesAtEarlier(secs, topic, j);
    } else {
      CandidatesAtLast(secs, topic);
    }
  }

  /** A significant section before the last keeps its place among the
      candidates when the last section is added. */
  lemma {:induction false} CandidatesAtEarlier(secs: seq<Section>, topic: Topic, j: nat)
    requires j < |secs| - 1 && IsSignificant(LevelIn(secs[j], topic))
    ensures CountSignificant(secs[..j], topic) < |Candidates(secs, topic)|
    ensures Candidates(secs, topic)[CountSignificant(secs[..j], topic)] == CandidateOf(secs[j], topic)
    decreases |secs|, 0
  {
    var init := secs[..|secs| - 1];
    assert init[..j] == secs[..j];
    CandidatesAt(init, topic, j);
    var c := Candidates(init, topic);
    var n := CountSignificant(secs[..j], topic);
    assert Candidates(secs, topic)[n] == c[n];
  }

  /** A significant last section is the last candidate. */
  lemma CandidatesAtLast(secs: seq<Section>, topic: Topic)
    requires secs != [] && IsSignificant(LevelIn(secs[|secs| - 1], topic))
    ensures CountSignificant(secs[..|secs| - 1], topic) < |Candidates(secs, topic)|
    ensures Candidates(secs, topic)[CountSignificant(secs[..|secs| - 1], topic)] == CandidateOf(secs[|secs| - 1], topic)
  {
    var init := secs[..|secs| - 1];
    CandidatesLength(init, topic);
  }

  lemma {:induction false} CandidatesLength(secs: seq<Section>, topic: Topic)
    ensures |Candidates(secs, topic)| == CountSignificant(secs, topic)
    ensures forall c :: c in Candidates(secs, topic) ==> IsSignificant(c.level)
  {
    if secs != [] {
      CandidatesLength(secs[..|secs| - 1], topic);
    }
  }

  /** The severe and the high ids split the candidates between them: together
      they are as many as the candidates (`affectedProvisions`), and an id is
      among them exactly when it is a candidate's id. */
  lemma {:induction false} BandsSplitCandidates(secs: seq<Section>, topic: Topic)
    ensures |SevereIds(secs, topic)| + |HighIds(secs, topic)| == |Candidates(secs, topic)|
    ensures forall id :: id in SevereIds(secs, topic) || id in HighIds(secs, topic) <==> id in Ids(Candidates(secs, topic))
  {
    if secs != [] {
      var init := secs[..|secs| - 1];
      var last := secs[|secs| - 1];
      BandsSplitCandidates(init, topic);
      var c := Candidates(init, topic);
      var level := LevelIn(last, topic);
      BandsDisjoint(level);
      var all' := Ids(c);
      if IsSignificant(level) {
        IdsAppend(c, CandidateOf(last, topic));
        all' := Ids(c) + [last.id];
      } else {
        assert Candidates(secs, topic) == c;
      }
      assert Ids(Candidates(secs, topic)) == all';
      SplitStep(SevereIds(init, topic), HighIds(init, topic), Ids(c), last.id, IsSevere(level), IsHigh(level),
                SevereIds(secs, topic), HighIds(secs, topic), all');
    }
  }

  lemma IdsAppend(c: seq<Candidate>, x: Candidate)
    ensures Ids(c + [x]) == Ids(c) + [x.id]
  {
    assert (c + [x])[..|c|] == c;
  }

  /** One section's step of `BandsSplitCandidates`, on plain sequences. */
  lemma SplitStep(sev: seq<string>, high: seq<string>, all: seq<string>, id: string, isSevere: bool, isHigh: bool,
                  sev': seq<string>, high': seq<string>, all': seq<string>)
    requires forall x :: x in sev || x in high <==> x in all
    requires sev' == sev + (if isSevere then [id] else [])
    requires high' == high + (if isHigh then [id] else [])
    requires all' == all + (if isSevere || isHigh then [id] else [])
    ensures forall x :: x in sev' || x in high' <==> x in all'
  {
  }

  /** `topic_provisions[topic]`, `topic_severe_provisions[topic]` and
      `topic_high_provisions[topic]` all describe the sections `secs`. */
  ghost predicate Collected(cand: map<Topic, seq<Candidate>>, severe: map<Topic, seq<string>>,
                            high: map<Topic, seq<string>>, secs: seq<Section>, topic: Topic) {
    && topic in cand && topic in severe && topic in high
    && cand[topic] == Candidates(secs, topic)
    && severe[topic] == SevereIds(secs, topic)
    && high[topic] == HighIds(secs, topic)
  }

  /** Taking in one more section extends each list by that section alone. */
  lemma CollectStep(done: seq<Section>, s: Section, topic: Topic)
    ensures Candidates(done + [s], topic) ==
      Candidates(done, topic) + (if IsSignificant(LevelIn(s, topic)) then [CandidateOf(s, topic)] else [])
    ensures SevereIds(done + [s], topic) == SevereIds(done, topic) + (if IsSevere(LevelIn(s, topic)) then [s.id] else [])
    ensures HighIds(done + [s], topic) == HighIds(done, topic) + (if IsHigh(LevelIn(s, topic)) then [s.id] else [])
  {
    assert (done + [s])[..|done|] == done;
  }

  /** The body of the inner `for topic in TOPICS` loop, for section `s`. */
  method CollectTopic(cand: map<Topic, seq<Candidate>>, severe: map<Topic, seq<string>>,
                      high: map<Topic, seq<string>>, done: seq<Section>, s: Section, topic: Topic)
    returns (cand': map<Topic, seq<Candidate>>, severe': map<Topic, seq<string>>, high': map<Topic, seq<string>>)
    requires Collected(cand, severe, high, done, topic)
    ensures Collected(cand', severe', high', done + [s], topic)
    ensures cand'.Keys == cand.Keys && severe'.Keys == severe.Keys && high'.Keys == high.Keys
    ensures forall t :: t != topic && t in cand ==> cand'[t] == cand[t]
    ensures forall t :: t != topic && t in severe ==> severe'[t] == severe[t]
    ensures forall t :: t != topic && t in high ==> high'[t] == high[t]
  {
    CollectStep(done, s, topic);
    var level := LevelIn(s, topic);
    cand', severe', high' := cand, severe, high;
    if IsSignificant(level) {
      cand' := cand[topic := cand[topic] + [Candidate(s.id, s.title, s.rawText, level)]];
    }
    if IsSevere(level) {
      severe' := severe[topic := severe[topic] + [s.id]];
    } else if IsHigh(level) {
      high' := high[topic := high[topic] + [s.id]];
    }
  }

  /** One pass of the outer `for section in sections` loop: every topic's
      lists take in section `s`. */
  method CollectSection(cand: map<Topic, seq<Candidate>>, severe: map<Topic, seq<string>>,
                        high: map<Topic, seq<string>>, done: seq<Section>, s: Section)
    returns (cand': map<Topic, seq<Candidate>>, severe': map<Topic, seq<string>>, high': map<Topic, seq<string>>)
    requires forall t: Topic :: Collected(cand, severe, high, done, t)
    ensures forall t: Topic :: Collected(cand', severe', high', done + [s], t)
  {
    cand', severe', high' := cand, severe, high;
    var k := 0;
    while k < |ALL_TOPICS|
      invariant 0 <= k <= |ALL_TOPICS|
      invariant forall t: Topic :: Collected(cand', severe', high', if t.Index() < k then done + [s] else done, t)
    {
      ghost var c0, v0, h0 := cand', severe', high';
      var topic := ALL_TOPICS[k];
      IndexOfListed(k);
      cand', severe', high' := CollectTopic(cand', severe', high', done, s, topic);
      forall t: Topic
        ensures Collected(cand', severe', high', if t.Index() < k + 1 then done + [s] else done, t)
      {
        if t != topic {
          assert Collected(c0, v0, h0, if t.Index() < k then done + [s] else done, t);
        }
      }
      k := k + 1;
    }
    forall t: Topic
      ensures Collected(cand', severe', high', done + [s], t)
    {
      assert t.Index() < k;
    }
  }

  /** The nested loops of `process_bill` that sort provisions by topic and band;
      a section that is not a provision, or has no impact, reads as level
      `'none'` for every topic and so adds nothing. */
  method CollectByTopic(sections: seq<Section>)
    returns (cand: map<Topic, seq<Candidate>>, severe: map<Topic, seq<string>>, high: map<Topic, seq<string>>)
    ensures forall t: Topic :: Collected(cand, severe, high, sections, t)
  {
    EveryTopicListed();
    cand := map t | t in ALL_TOPICS :: [];
    severe := map t | t in ALL_TOPICS :: [];
    high := map t | t in ALL_TOPICS :: [];
    assert sections[..0] == [];
    forall t: Topic ensures Collected(cand, severe, high, sections[..0], t) {
      assert t in ALL_TOPICS;
    }
    var i := 0;
    while i < |sections|
      invariant 0 <= i <= |sections|
      invariant forall t: Topic :: Collected(cand, severe, high, sections[..i], t)
    {
      var done := sections[..i];
      assert sections[..i + 1] == done + [sections[i]];
      cand, severe, high := CollectSection(cand, severe, high, done, sections[i]);
      i := i + 1;
    }
    assert sections[..i] == sections;
  }

  /** The model call `generate_topic_impact_analysis`: (bill context, topic
      name, bill title, the topic's candidates) to the score and analysis
      text, or an exception. The candidates are handed over as JSON text,
      whose layout is not modelled. */
  type Analyzer = (string, string, string, seq<Candidate>) -> Result<AnalysisText>

  /** `impact_analyses` after the loop over the first `k` topics, or the
      exception that ended it. */
  function Analyses(secs: seq<Section>, context: string, stem: string, analyze: Analyzer, k: nat)
    : Result<map<string, TopicAnalysis>>
    requires k <= |ALL_TOPICS|
  {
    if k == 0 then Success(map[])
    else
      match Analyses(secs, context, stem, analyze, k - 1)
      case Failure(e) => Failure(e)
      case Success(m) =>
        var t := ALL_TOPICS[k - 1];
        var c := Candidates(secs, t);
        if c == [] then Success(m)
        else
          match analyze(context, t.Name(), stem, c)
          case Failure(e) => Failure(e)
          case Success(a) => Success(m[t.Name() := TopicAnalysis(a, |c|, Related(secs, t))])
  }

  /** The shape of `impact_analyses` after the first `k` topics: keyed by the
      names of the topics among them that have candidates, each entry with
      the number of candidates and the severe-else-high ids. */
  ghost predicate Shaped(secs: seq<Section>, m: map<string, TopicAnalysis>, k: nat) {
    && (forall key :: key in m ==> key in TOPICS)
    && (forall t: Topic :: t.Name() in m <==> t.Index() < k && Candidates(secs, t) != [])
    && (forall t: Topic :: t.Name() in m ==>
          m[t.Name()].affectedProvisions == |Candidates(secs, t)| && m[t.Name()].relatedProvisions == Related(secs, t))
  }

  lemma {:induction false} AnalysesShape(secs: seq<Section>, context: string, stem: string, analyze: Analyzer, k: nat)
    requires k <= |ALL_TOPICS|
    requires Analyses(secs, context, stem, analyze, k).Success?
    ensures Shaped(secs, Analyses(secs, context, stem, analyze, k).value, k)
  {
    if k > 0 {
      AnalysesShape(secs, context, stem, analyze, k - 1);
      var m := Analyses(secs, context, stem, analyze, k - 1).value;
      var m' := Analyses(secs, context, stem, analyze, k).value;
      var u := ALL_TOPICS[k - 1];
      ListedName(k - 1);
      var c := Candidates(secs, u);
      if c != [] {
        var a := analyze(context, u.Name(), stem, c).value;
        assert m' == m[u.Name() := TopicAnalysis(a, |c|, Related(secs, u))];
      }
      forall t: Topic
        ensures t.Name() in m' <==> t.Index() < k && Candidates(secs, t) != []
        ensures t.Name() in m' ==>
          m'[t.Name()].affectedProvisions == |Candidates(secs, t)| && m'[t.Name()].relatedProvisions == Related(secs, t)
      {
        if t != u {
          NamesDistinct(t, u);
          assert t.Index() != k - 1;
        }
      }
    }
  }

  /** Each entry of `impact_analyses` holds the analyser's answer for its
      topic's candidates. */
  lemma {:induction false} AnalysesAnswers(secs: seq<Section>, context: string, stem: string, analyze: Analyzer, k: nat, t: Topic)
    requires k <= |ALL_TOPICS|
    requires Analyses(secs, context, stem, analyze, k).Success?
    requires t.Name() in Analyses(secs, context, stem, analyze, k).value
    ensures analyze(context, t.Name(), stem, Candidates(secs, t))
      == Success(Analyses(secs, context, stem, analyze, k).value[t.Name()].analysis)
  {
    var u := ALL_TOPICS[k - 1];
    ListedName(k - 1);
    if t == u && Candidates(secs, u) != [] {
    } else {
      if t != u {
        NamesDistinct(t, u);
      }
      AnalysesAnswers(secs, context, stem, analyze, k - 1, t);
    }
  }

  /** No topic is analysed exactly when no provision is severe or high for any topic. */
  lemma NoAnalysesWhenNothingSignificant(secs: seq<Section>, context: string, stem: string, analyze: Analyzer)
    requires Analyses(secs, context, stem, analyze, |ALL_TOPICS|).Success?
    ensures Analyses(secs, context, stem, analyze, |ALL_TOPICS|).value == map[] <==>
      forall t: Topic :: Candidates(secs, t) == []
  {
    AnalysesShape(secs, context, stem, analyze, |ALL_TOPICS|);
    var m := Analyses(secs, context, stem, analyze, |ALL_TOPICS|).value;
    if m != map[] {
      var key :| key in m;
      var j :| 0 <= j < |TOPICS| && TOPICS[j] == key;
      TopicsAreTheFourDistinctNames();
      IndexOfListed(j);
      var t := ALL_TOPICS[j];
      assert t.Name() in m;
      assert Candidates(secs, t) != [];
    }
  }

  datatype Outcome =
    | AlreadyPresent                                   // the key exists and `force` is off
    | NoSections
    | Raised(error: string)                            // the analyzer raised
    | NoTopics                                         // no topic had a severe or high provision
    | DryRun(analyses: map<string, TopicAnalysis>)     // generated but not stored
    | Written(analyses: map<string, TopicAnalysis>)

  /** `process_bill`, with `stem` the file name without extension (the bill title). */
  method GenerateImpactAnalysis(doc: Document, stem: string, dryRun: bool, force: bool, analyze: Analyzer)
    returns (r: Outcome)
    requires doc.Synced()
    modifies doc`impactAnalyses, doc`log
    ensures old(doc.impactAnalyses).Some? && !force ==> r == AlreadyPresent
    ensures old(doc.impactAnalyses).None? || force ==>
      && (doc.sections == [] ==> r == NoSections)
      && (doc.sections != [] ==>
            match Analyses(doc.sections, BillContext(doc.executiveSummary), stem, analyze, |ALL_TOPICS|)
            case Failure(e) => r == Raised(e)
            case Success(m) => r == if m == map[] then NoTopics else if dryRun then DryRun(m) else Written(m))
    ensures r.Written? ==> doc.impactAnalyses == Some(r.analyses) && doc.log == old(doc.log) + [doc.Snapshot()]
    ensures !r.Written? ==> doc.impactAnalyses == old(doc.impactAnalyses) && doc.log == old(doc.log)
    ensures doc.Synced()
  {
    if doc.impactAnalyses.Some? && !force {
      return AlreadyPresent;
    }
    if doc.sections == [] {
      return NoSections;
    }
    var context := BillContext(doc.executiveSummary);
    var analyses := AnalyseTopics(doc.sections, context, stem, analyze);
    if analyses.Failure? {
      return Raised(analyses.error);
    }
    if analyses.value == map[] {
      return NoTopics;
    }
    if dryRun {
      return DryRun(analyses.value);
    }
    doc.impactAnalyses := Some(analyses.value);
    doc.Save();
    return Written(analyses.value);
  }

  /** The collection loops and the `for topic in TOPICS` loop that builds
      `impact_analyses`. */
  method AnalyseTopics(sections: seq<Section>, context: string, stem: string, analyze: Analyzer)
    returns (r: Result<map<string, TopicAnalysis>>)
    ensures r == Analyses(sections, context, stem, analyze, |ALL_TOPICS|)
  {
    var cand, severe, high := CollectByTopic(sections);
    var analyses: map<string, TopicAnalysis> := map[];
    var k := 0;
    while k < |ALL_TOPICS|
      invariant 0 <= k <= |ALL_TOPICS|
      invariant Analyses(sections, context, stem, analyze, k) == Success(analyses)
    {
      var t := ALL_TOPICS[k];
      assert Collected(cand, severe, high, sections, t);
      AnalysesNext(sections, context, stem, analyze, k, analyses);
      var provisions := cand[t];
      if provisions != [] {
        var res := analyze(context, t.Name(), stem, provisions);
        if res.Failure? {
          LoopStopsOnFailure(sections, context, stem, analyze, k + 1);
          return Failure(res.error);
        }
        var related := if severe[t] != [] then severe[t] else high[t];
        analyses := analyses[t.Name() := TopicAnalysis(res.value, |provisions|, related)];
      }
      k := k + 1;
    }
    return Success(analyses);
  }

  /** One pass of the topic loop, for a topic without and with candidates. */
  lemma AnalysesNext(secs: seq<Section>, context: string, stem: string, analyze: Analyzer, k: nat,
                     m: map<string, TopicAnalysis>)
    requires k < |ALL_TOPICS| && Analyses(secs, context, stem, analyze, k) == Success(m)
    ensures Candidates(secs, ALL_TOPICS[k]) == [] ==> Analyses(secs, context, stem, analyze, k + 1) == Success(m)
    ensures Candidates(secs, ALL_TOPICS[k]) != [] ==>
      var t := ALL_TOPICS[k];
      var res := analyze(context, t.Name(), stem, Candidates(secs, t));
      res.Success? ==>
        Analyses(secs, context, stem, analyze, k + 1)
          == Success(m[t.Name() := TopicAnalysis(res.value, |Candidates(secs, t)|, Related(secs, t))])
  {
  }

  /** Once the analyzer has raised, the later topics are not analysed. */
  lemma {:induction false} LoopStopsOnFailure(secs: seq<Section>, context: string, stem: string, analyze: Analyzer, k: nat)
    requires k <= |ALL_TOPICS|
    requires Analyses(secs, context, stem, analyze, k).Failure?
    ensures Analyses(secs, context, stem, analyze, |ALL_TOPICS|) == Analyses(secs, context, stem, analyze, k)
    decreases |ALL_TOPICS| - k
  {
    if k < |ALL_TOPICS| {
      LoopStopsOnFailure(secs, context, stem, analyze, k + 1);
    }
  }
}
