/** `pipeline/scripts/10_transform_for_web.py`: reshape a finished bill into
    the record the web front end reads. */
module TransformForWeb {
  import opened Wrappers
  import opened Text
  import opened Shared
  import opened Bill
  import opened Seqs
  import EnrichMetadata
  import Assess

  /** `extract_bill_number`: group 1 of `re.match(r'^(\d+)\.', filename)`,
      else `""`. */
  function ExtractBillNumber(filename: string): (r: string)
    ensures r == "" <==> !EnrichMetadata.HasNumberPrefix(filename)
    ensures r != "" ==> |r| < |filename| && r == filename[..|r|] && AllDigits(r) && filename[|r|] == '.'
  {
    if EnrichMetadata.HasNumberPrefix(filename) then filename[..DigitRun(filename)] else ""
  }

  /** The number this stage reads off a file name and the title stage 9
      keeps split the name: number, dot, whitespace, title. Without a number
      the title is the whole name. */
  lemma NumberThenTitle(filename: string)
    ensures ExtractBillNumber(filename) == "" ==> EnrichMetadata.RemoveNumberPrefix(filename) == filename
    ensures ExtractBillNumber(filename) != "" ==>
      && |ExtractBillNumber(filename)| + 1 + |EnrichMetadata.RemoveNumberPrefix(filename)| <= |filename|
      && AllSpace(filename[|ExtractBillNumber(filename)| + 1..|filename| - |EnrichMetadata.RemoveNumberPrefix(filename)|])
      && filename == ExtractBillNumber(filename) + "."
                     + filename[|ExtractBillNumber(filename)| + 1..|filename| - |EnrichMetadata.RemoveNumberPrefix(filename)|]
                     + EnrichMetadata.RemoveNumberPrefix(filename)
  {
    var n := ExtractBillNumber(filename);
    if n != "" {
      var t := EnrichMetadata.RemoveNumberPrefix(filename);
      var mid := filename[|n| + 1..|filename| - |t|];
      assert filename == filename[..|n|] + [filename[|n|]] + mid + filename[|filename| - |t|..];
    }
  }

  /** `impacts[key]` of the web record. `description` is the analysis object
      of stage 7, or `None` for a key linked without an analysis. */
  datatype WebImpact = WebImpact(score: string, description: Option<AnalysisText>, relatedProvisions: seq<string>)

  datatype WebProvision = WebProvision(
    id: string, section: int, title: string, plainLanguage: string, rawText: string,
    relatedImpacts: seq<string>)

  datatype WebConcern = WebConcern(
    id: string, title: string, severity: string, description: string,
    relatedProvisions: seq<string>, relatedImpacts: seq<string>)

  datatype Video = Video(url: string, duration: string)

  /** The web app's `Bill` record. */
  datatype WebBill = WebBill(
    id: string,
    title: string,
    summary: string,
    pdfPath: Option<string>,
    impacts: map<string, WebImpact>,
    keyConcerns: seq<WebConcern>,
    provisions: seq<WebProvision>,
    notebookLMVideo: Video,
    deadline: string,
    submissionMethod: string,
    relatedBills: seq<string>)

  // The fields the script fills with fixed placeholders.
  const VIDEO_DURATION := "10:00"
  const DEADLINE := "2025-12-31"
  const SUBMISSION_METHOD := "Email to clerk@parliament.gov.gh"

  /** `topic_to_key`: the front end's key for each topic. */
  function WebKey(t: Topic): string {
    match t
    case DigitalInnovation => "innovation"
    case FreedomOfSpeech => "freedomOfSpeech"
    case PrivacyDataRights => "privacy"
    case BusinessEnvironment => "business"
  }

  /** The keys of `all_category_provisions`, in its insertion order. */
  const WEB_KEYS: seq<string> := [WebKey(DigitalInnovation), WebKey(FreedomOfSpeech),
                                  WebKey(PrivacyDataRights), WebKey(BusinessEnvironment)]

  /** `topic_to_key.get(topic, slugify(topic))`. */
  function KeyOf(topic: string): string {
    if topic == DigitalInnovation.Name() then WebKey(DigitalInnovation)
    else if topic == FreedomOfSpeech.Name() then WebKey(FreedomOfSpeech)
    else if topic == PrivacyDataRights.Name() then WebKey(PrivacyDataRights)
    else if topic == BusinessEnvironment.Name() then WebKey(BusinessEnvironment)
    else Slugify(topic)
  }

  /** A topic name maps to its own key. */
  lemma KeyOfTopic(t: Topic)
    ensures KeyOf(t.Name()) == WebKey(t)
  {
    forall u: Topic | u != t ensures u.Name() != t.Name() {
      NamesDistinct(u, t);
    }
  }

  /** No other topic has the key of `t`, which is a front-end key. */
  lemma WebKeyOf(t: Topic)
    ensures forall u: Topic :: WebKey(u) == WebKey(t) <==> u == t
    ensures WebKey(t) in WEB_KEYS
  {
    forall u: Topic | u != t ensures WebKey(u) != WebKey(t) {
      assert WebKey(u)[0] != WebKey(t)[0];
    }
  }

  /** The four keys are distinct, and `WEB_KEYS` lists them in topic order. */
  lemma WebKeysDistinct()
    ensures forall t: Topic, u: Topic :: WebKey(t) == WebKey(u) <==> t == u
    ensures forall t: Topic :: t.Index() < |WEB_KEYS| && WEB_KEYS[t.Index()] == WebKey(t)
    ensures forall key :: key in WEB_KEYS <==> exists t: Topic :: WebKey(t) == key
  {
    forall t: Topic, u: Topic | t != u ensures WebKey(t) != WebKey(u) {
      assert WebKey(t)[0] != WebKey(u)[0];
    }
    forall key | key in WEB_KEYS ensures exists t: Topic :: WebKey(t) == key {
      var j :| 0 <= j < |WEB_KEYS| && WEB_KEYS[j] == key;
      assert WebKey(ALL_TOPICS[j]) == key;
    }
  }

  /** `if level and level != 'neutral' and level != 'none'`. */
  predicate Relevant(level: string) {
    level != "" && level != NEUTRAL && level != NONE
  }

  /** `impact.levels`, or nothing for a section without an impact. */
  function LevelsOf(s: Section): seq<(string, string)> {
    if s.impact.Some? then s.impact.value.levels else []
  }

  /** The topics of `levels` whose level is relevant, in level order. */
  function RelevantTopics(levels: seq<(string, string)>): (r: seq<string>)
    ensures |r| <= |levels|
  {
    if levels == [] then []
    else RelevantTopics(levels[..|levels| - 1])
         + (if Relevant(levels[|levels| - 1].1) then [levels[|levels| - 1].0] else [])
  }

  /** The key of each topic of `topics`. */
  function KeysOf(topics: seq<string>): (r: seq<string>)
    ensures |r| == |topics|
    ensures forall i :: 0 <= i < |topics| ==> r[i] == KeyOf(topics[i])
  {
    Map(KeyOf, topics)
  }

  /** `related_impacts` for a provision with the level object `levels`: the
      key of every topic with a relevant level, in level order. */
  function RelatedKeys(levels: seq<(string, string)>): seq<string> {
    KeysOf(RelevantTopics(levels))
  }

  /** What the provision `id` with the related impacts `related` appends to
      the id list of `key`: its id once for each time `key` is among them. */
  function LinkIds(id: string, related: seq<string>, key: string): seq<string> {
    if related == [] then []
    else LinkIds(id, related[..|related| - 1], key) + (if related[|related| - 1] == key then [id] else [])
  }

  /** The ids of the provision entries `provs` that list `key` among their
      related impacts, in order, once per listing. */
  function LinksOf(provs: seq<WebProvision>, key: string): seq<string> {
    if provs == [] then []
    else LinksOf(provs[..|provs| - 1], key)
         + LinkIds(provs[|provs| - 1].id, provs[|provs| - 1].relatedImpacts, key)
  }

  /** The entry `p` has the id `id` and lists `key`. */
  predicate LinksTo(p: WebProvision, key: string, id: string) {
    p.id == id && key in p.relatedImpacts
  }

  lemma {:induction false} RelevantTopicsMembers(levels: seq<(string, string)>, topic: string)
    ensures topic in RelevantTopics(levels) <==>
      exists i :: 0 <= i < |levels| && Relevant(levels[i].1) && levels[i].0 == topic
  {
    if levels != [] {
      var init := levels[..|levels| - 1];
      RelevantTopicsMembers(init, topic);
      if exists i :: 0 <= i < |levels| && Relevant(levels[i].1) && levels[i].0 == topic {
        var i :| 0 <= i < |levels| && Relevant(levels[i].1) && levels[i].0 == topic;
        if i < |init| {
          assert init[i] == levels[i];
        }
      }
      if topic in RelevantTopics(init) {
        var i :| 0 <= i < |init| && Relevant(init[i].1) && init[i].0 == topic;
        assert levels[i] == init[i];
      }
    }
  }

  /** A key is related exactly when some topic with a relevant level maps to it. */
  lemma RelatedKeysMembers(levels: seq<(string, string)>, key: string)
    ensures key in RelatedKeys(levels) <==>
      exists i :: 0 <= i < |levels| && Relevant(levels[i].1) && KeyOf(levels[i].0) == key
  {
    var ts := RelevantTopics(levels);
    if key in RelatedKeys(levels) {
      var m :| 0 <= m < |ts| && KeysOf(ts)[m] == key;
      RelevantTopicsMembers(levels, ts[m]);
    }
    if exists i :: 0 <= i < |levels| && Relevant(levels[i].1) && KeyOf(levels[i].0) == key {
      var i :| 0 <= i < |levels| && Relevant(levels[i].1) && KeyOf(levels[i].0) == key;
      RelevantTopicsMembers(levels, levels[i].0);
      var m :| 0 <= m < |ts| && ts[m] == levels[i].0;
      assert KeysOf(ts)[m] == key;
    }
  }

  /** A provision appends only its own id, and appends it exactly when the
      key is among its related impacts. */
  lemma {:induction false} LinkIdsMembers(id: string, related: seq<string>, key: string)
    ensures forall x :: x in LinkIds(id, related, key) ==> x == id
    ensures LinkIds(id, related, key) != [] <==> key in related
  {
    if related != [] {
      var init := related[..|related| - 1];
      LinkIdsMembers(id, init, key);
      assert related == init + [related[|related| - 1]];
    }
  }

  lemma LinkIdsSnoc(id: string, related: seq<string>, key: string)
    ensures forall k :: LinkIds(id, related + [key], k) == LinkIds(id, related, k) + (if k == key then [id] else [])
  {
    assert (related + [key])[..|related|] == related;
  }

  /** The links of two consecutive runs of entries are the links of the
      first followed by those of the second. */
  lemma {:induction false} LinksAppend(a: seq<WebProvision>, b: seq<WebProvision>, key: string)
    ensures LinksOf(a + b, key) == LinksOf(a, key) + LinksOf(b, key)
    decreases |b|
  {
    if b == [] {
      assert a + b == a;
    } else {
      var init := b[..|b| - 1];
      var last := b[|b| - 1];
      assert (a + b)[..|a + b| - 1] == a + init;
      assert (a + b)[|a + b| - 1] == last;
      LinksAppend(a, init, key);
      var own := LinkIds(last.id, last.relatedImpacts, key);
      assert LinksOf(a + b, key) == LinksOf(a + init, key) + own;
      assert LinksOf(b, key) == LinksOf(init, key) + own;
      assert (LinksOf(a, key) + LinksOf(init, key)) + own == LinksOf(a, key) + (LinksOf(init, key) + own);
    }
  }

  /** An id is linked to `key` exactly when some entry with that id lists
      `key`: the two directions of the front end's links agree. */
  lemma {:induction false} LinksMembers(provs: seq<WebProvision>, key: string, id: string)
    ensures id in LinksOf(provs, key) <==> exists j :: 0 <= j < |provs| && LinksTo(provs[j], key, id)
  {
    if provs != [] {
      var init := provs[..|provs| - 1];
      var last := provs[|provs| - 1];
      LinksMembers(init, key, id);
      var own := LinkIds(last.id, last.relatedImpacts, key);
      LinkIdsMembers(last.id, last.relatedImpacts, key);
      if own != [] {
        assert own[0] in own;
      }
      assert id in own <==> LinksTo(last, key, id);
      if exists j :: 0 <= j < |provs| && LinksTo(provs[j], key, id) {
        var j :| 0 <= j < |provs| && LinksTo(provs[j], key, id);
        if j < |init| {
          assert init[j] == provs[j];
        }
      }
      if id in LinksOf(init, key) {
        var j :| 0 <= j < |init| && LinksTo(init[j], key, id);
        assert provs[j] == init[j];
      }
    }
  }

  /** On a level object naming the four topics in order, a topic's key is
      related exactly when its own level is relevant. */
  lemma RelatedTopicKeys(levels: seq<(string, string)>, t: Topic)
    requires |levels| == |ALL_TOPICS|
    requires forall u: Topic :: levels[u.Index()].0 == u.Name()
    ensures WebKey(t) in RelatedKeys(levels) <==> Relevant(levels[t.Index()].1)
  {
    RelatedKeysMembers(levels, WebKey(t));
    KeyOfTopic(t);
    if exists i :: 0 <= i < |levels| && Relevant(levels[i].1) && KeyOf(levels[i].0) == WebKey(t) {
      var i :| 0 <= i < |levels| && Relevant(levels[i].1) && KeyOf(levels[i].0) == WebKey(t);
      var u := ALL_TOPICS[i];
      IndexOfListed(i);
      KeyOfTopic(u);
      WebKeysDistinct();
    }
  }

  /** After stage 6 a provision links to exactly the topics it rated other
      than neutral. */
  lemma AssessedLinks(a: Assess.Assessment, t: Topic)
    ensures WebKey(t) in RelatedKeys(Assess.ToImpact(a).levels) <==> a.LevelFor(t) != Neutral
  {
    var levels := Assess.ToImpact(a).levels;
    Assess.ImpactKeys(a);
    assert |levels| == |ALL_TOPICS|;
    assert forall u: Topic :: levels[u.Index()].0 == u.Name();
    RelatedTopicKeys(levels, t);
    var level := a.LevelFor(t);
    assert levels[t.Index()].1 == level.Name();
    ImpactLevelScale(level, Neutral);
    assert Relevant(level.Name()) <==> level != Neutral;
  }

  /** The two dictionaries of `transform_bill` while it walks the sections:
      `impacts` has the analysed keys of `base`, each carrying the ids
      `linked` to it so far, and `all_category_provisions` (`pending`)
      carries them for the other front-end keys. */
  ghost predicate Holds(impacts: map<string, WebImpact>, pending: map<string, seq<string>>,
                        base: map<string, WebImpact>, linked: string -> seq<string>)
  {
    && impacts.Keys == base.Keys
    && (forall key :: key in base ==> key in WEB_KEYS)
    && (forall key :: key in base ==> impacts[key] == base[key].(relatedProvisions := linked(key)))
    && (forall key :: key in pending <==> key in WEB_KEYS)
    && (forall key :: key in WEB_KEYS && key !in base ==> pending[key] == linked(key))
  }

  /** Only the ids linked to the front-end keys matter. */
  lemma HoldsSame(impacts: map<string, WebImpact>, pending: map<string, seq<string>>,
                  base: map<string, WebImpact>, linked: string -> seq<string>, linked': string -> seq<string>)
    requires Holds(impacts, pending, base, linked)
    requires forall key :: key in WEB_KEYS ==> linked'(key) == linked(key)
    ensures Holds(impacts, pending, base, linked')
  {
  }

  /** One relevant level handled: `id` joins the list of its key, in
      `impacts` if the key is analysed, else in `pending` if it is a
      front-end key. */
  lemma HoldsAdd(impacts: map<string, WebImpact>, pending: map<string, seq<string>>,
                 impacts': map<string, WebImpact>, pending': map<string, seq<string>>,
                 base: map<string, WebImpact>, linked: string -> seq<string>, linked': string -> seq<string>,
                 id: string, key: string)
    requires Holds(impacts, pending, base, linked)
    requires forall k :: linked'(k) == linked(k) + (if k == key then [id] else [])
    requires key in impacts ==>
      impacts' == impacts[key := impacts[key].(relatedProvisions := impacts[key].relatedProvisions + [id])] && pending' == pending
    requires key !in impacts && key in pending ==> impacts' == impacts && pending' == pending[key := pending[key] + [id]]
    requires key !in impacts && key !in pending ==> impacts' == impacts && pending' == pending
    ensures Holds(impacts', pending', base, linked')
  {
  }

  /** `HoldsAdd` for the provision `id` gaining the related key `key`. */
  lemma HoldsStep(impacts: map<string, WebImpact>, pending: map<string, seq<string>>,
                  impacts': map<string, WebImpact>, pending': map<string, seq<string>>,
                  base: map<string, WebImpact>, linked: string -> seq<string>,
                  id: string, related: seq<string>, key: string)
    requires Holds(impacts, pending, base, k => linked(k) + LinkIds(id, related, k))
    requires key in impacts ==>
      impacts' == impacts[key := impacts[key].(relatedProvisions := impacts[key].relatedProvisions + [id])] && pending' == pending
    requires key !in impacts && key in pending ==> impacts' == impacts && pending' == pending[key := pending[key] + [id]]
    requires key !in impacts && key !in pending ==> impacts' == impacts && pending' == pending
    ensures Holds(impacts', pending', base, k => linked(k) + LinkIds(id, related + [key], k))
  {
    LinkIdsSnoc(id, related, key);
    HoldsAdd(impacts, pending, impacts', pending', base,
             k => linked(k) + LinkIds(id, related, k), k => linked(k) + LinkIds(id, related + [key], k), id, key);
  }

  lemma RelevantTopicsSnoc(levels: seq<(string, string)>, k: nat)
    requires k < |levels|
    ensures RelevantTopics(levels[..k + 1]) ==
      RelevantTopics(levels[..k]) + (if Relevant(levels[k].1) then [levels[k].0] else [])
  {
    assert levels[..k + 1][..k] == levels[..k];
  }

  lemma KeysOfSnoc(topics: seq<string>, topic: string)
    ensures KeysOf(topics + [topic]) == KeysOf(topics) + [KeyOf(topic)]
  {
    MapSnoc(KeyOf, topics, topic);
  }

  /** The first loop of `transform_bill`: an entry for each topic that has an
      analysis, with the analysis's score and text and no provisions yet. */
  method InitialImpacts(analyses: map<string, TopicAnalysis>) returns (impacts: map<string, WebImpact>)
    ensures forall key :: key in impacts ==> key in WEB_KEYS && impacts[key].relatedProvisions == []
    ensures forall t: Topic :: WebKey(t) in impacts <==> t.Name() in analyses
    ensures forall t: Topic :: t.Name() in analyses ==>
      impacts[WebKey(t)] == WebImpact(analyses[t.Name()].analysis.score, Some(analyses[t.Name()].analysis), [])
  {
    impacts := map[];
    var i := 0;
    while i < |TOPICS|
      invariant 0 <= i <= |TOPICS|
      invariant forall key :: key in impacts ==> key in WEB_KEYS && impacts[key].relatedProvisions == []
      invariant forall t: Topic :: WebKey(t) in impacts <==> t.Index() < i && t.Name() in analyses
      invariant forall t: Topic :: t.Index() < i && t.Name() in analyses ==>
        impacts[WebKey(t)] == WebImpact(analyses[t.Name()].analysis.score, Some(analyses[t.Name()].analysis), [])
    {
      impacts := AddTopic(analyses, impacts, i);
      i := i + 1;
    }
  }

  /** One pass of the first loop, over the topic `TOPICS[i]`. */
  method AddTopic(analyses: map<string, TopicAnalysis>, impacts: map<string, WebImpact>, i: nat)
    returns (impacts': map<string, WebImpact>)
    requires i < |TOPICS|
    requires forall key :: key in impacts ==> key in WEB_KEYS && impacts[key].relatedProvisions == []
    requires forall t: Topic :: WebKey(t) in impacts <==> t.Index() < i && t.Name() in analyses
    requires forall t: Topic :: t.Index() < i && t.Name() in analyses ==>
      impacts[WebKey(t)] == WebImpact(analyses[t.Name()].analysis.score, Some(analyses[t.Name()].analysis), [])
    ensures forall key :: key in impacts' ==> key in WEB_KEYS && impacts'[key].relatedProvisions == []
    ensures forall t: Topic :: WebKey(t) in impacts' <==> t.Index() <= i && t.Name() in analyses
    ensures forall t: Topic :: t.Index() <= i && t.Name() in analyses ==>
      impacts'[WebKey(t)] == WebImpact(analyses[t.Name()].analysis.score, Some(analyses[t.Name()].analysis), [])
  {
    ListedName(i);
    var topic := TOPICS[i];
    ghost var t := ALL_TOPICS[i];
    KeyOfTopic(t);
    WebKeyOf(t);
    var key := KeyOf(topic);
    impacts' := impacts;
    if topic in analyses {
      var analysis := analyses[topic].analysis;
      impacts' := impacts[key := WebImpact(analysis.score, Some(analysis), [])];
    }
    forall u: Topic
      ensures WebKey(u) in impacts' <==> u.Index() <= i && u.Name() in analyses
      ensures u.Index() <= i && u.Name() in analyses ==>
        impacts'[WebKey(u)] == WebImpact(analyses[u.Name()].analysis.score, Some(analyses[u.Name()].analysis), [])
    {
      if u != t {
        assert WebKey(u) != key && u.Index() != i;
      }
    }
  }

  /** The inner loop over one provision's levels: its related impacts, and its
      id appended to the list of every analysed or front-end key it relates to. */
  method LinkProvision(id: string, levels: seq<(string, string)>,
                       impacts: map<string, WebImpact>, pending: map<string, seq<string>>,
                       ghost base: map<string, WebImpact>, ghost linked: string -> seq<string>)
    returns (related: seq<string>, impacts': map<string, WebImpact>, pending': map<string, seq<string>>)
    requires Holds(impacts, pending, base, linked)
    ensures related == RelatedKeys(levels)
    ensures Holds(impacts', pending', base, key => linked(key) + LinkIds(id, related, key))
  {
    related, impacts', pending' := [], impacts, pending;
    ghost var topics: seq<string> := [];
    HoldsSame(impacts, pending, base, linked, key => linked(key) + LinkIds(id, [], key));
    var k := 0;
    while k < |levels|
      invariant 0 <= k <= |levels|
      invariant topics == RelevantTopics(levels[..k]) && related == KeysOf(topics)
      invariant Holds(impacts', pending', base, key => linked(key) + LinkIds(id, related, key))
    {
      var topic := levels[k].0;
      var level := levels[k].1;
      RelevantTopicsSnoc(levels, k);
      if level != "" && level != NEUTRAL && level != NONE {
        var key := KeyOf(topic);
        KeysOfSnoc(topics, topic);
        impacts', pending' := LinkKey(id, key, impacts', pending', base, linked, related);
        topics := topics + [topic];
        related := related + [key];
      }
      k := k + 1;
    }
    assert levels[..k] == levels;
  }

  /** The id appended to the `relatedProvisions` of the analysed key `key`,
      else to its front-end list, if it has one. */
  method LinkKey(id: string, key: string, impacts: map<string, WebImpact>, pending: map<string, seq<string>>,
                 ghost base: map<string, WebImpact>, ghost linked: string -> seq<string>, ghost related: seq<string>)
    returns (impacts': map<string, WebImpact>, pending': map<string, seq<string>>)
    requires Holds(impacts, pending, base, k => linked(k) + LinkIds(id, related, k))
    ensures Holds(impacts', pending', base, k => linked(k) + LinkIds(id, related + [key], k))
  {
    impacts', pending' := impacts, pending;
    if key in impacts {
      impacts' := impacts[key := impacts[key].(relatedProvisions := impacts[key].relatedProvisions + [id])];
    } else if key in pending {
      pending' := pending[key := pending[key] + [id]];
    }
    HoldsStep(impacts, pending, impacts', pending', base, linked, id, related, key);
  }

  /** The loop of `transform_bill` over the sections: an entry for each
      provision, its id linked to every key it relates to. */
  method LinkSections(sections: seq<Section>, impacts: map<string, WebImpact>, pending: map<string, seq<string>>,
                      ghost base: map<string, WebImpact>)
    returns (impacts': map<string, WebImpact>, pending': map<string, seq<string>>, provisions: seq<WebProvision>)
    requires Holds(impacts, pending, base, key => [])
    ensures provisions == WebProvisions(Provisions(sections))
    ensures Holds(impacts', pending', base, key => LinksOf(provisions, key))
  {
    impacts', pending', provisions := impacts, pending, [];
    HoldsSame(impacts, pending, base, key => [], key => LinksOf([], key));
    var i := 0;
    while i < |sections|
      invariant 0 <= i <= |sections|
      invariant provisions == WebProvisions(Provisions(sections[..i]))
      invariant Holds(impacts', pending', base, key => LinksOf(provisions, key))
    {
      var s := sections[i];
      ProvisionsSnoc(sections, i);
      ProvisionTest(s, "");
      if CategoryType(s, "") == CATEGORY_PROVISION {
        var levels := if s.impact.Some? then s.impact.value.levels else [];
        var related;
        ghost var before := provisions;
        related, impacts', pending' := LinkProvision(s.id, levels, impacts', pending', base, key => LinksOf(provisions, key));
        WebProvisionsSnoc(Provisions(sections[..i]), s);
        var entry := WebProvision(s.id, s.index, s.title, s.summary.GetOr(""), s.rawText, related);
        assert entry == ToWebProvision(s);
        provisions := provisions + [entry];
        LinksSnoc(before, provisions[|before|]);
        HoldsSame(impacts', pending', base, key => LinksOf(before, key) + LinkIds(s.id, related, key),
                  key => LinksOf(provisions, key));
        assert provisions == WebProvisions(Provisions(sections[..i]) + [s]);
      } else {
        assert Provisions(sections[..i + 1]) == Provisions(sections[..i]);
      }
      i := i + 1;
    }
    assert sections[..i] == sections;
  }

  lemma ProvisionsSnoc(secs: seq<Section>, i: nat)
    requires i < |secs|
    ensures Provisions(secs[..i + 1]) == Provisions(secs[..i]) + (if IsProvision(secs[i]) then [secs[i]] else [])
  {
    assert secs[..i + 1][..i] == secs[..i];
  }

  /** The entries of the provisions `ps`, in order. */
  function WebProvisions(ps: seq<Section>): (r: seq<WebProvision>)
    ensures |r| == |ps|
    ensures forall j :: 0 <= j < |ps| ==> r[j] == ToWebProvision(ps[j])
  {
    Map(ToWebProvision, ps)
  }

  lemma WebProvisionsSnoc(ps: seq<Section>, s: Section)
    ensures WebProvisions(ps + [s]) == WebProvisions(ps) + [ToWebProvision(s)]
  {
    MapSnoc(ToWebProvision, ps, s);
  }

  lemma LinksSnoc(provs: seq<WebProvision>, p: WebProvision)
    ensures forall key :: LinksOf(provs + [p], key) == LinksOf(provs, key) + LinkIds(p.id, p.relatedImpacts, key)
  {
    assert (provs + [p])[..|provs|] == provs;
  }

  /** The last loop of `transform_bill`: a front-end key without an analysis
      gets an entry, scored neutral and without a description, when some
      provision relates to it. */
  method LinkPending(impacts: map<string, WebImpact>, pending: map<string, seq<string>>)
    returns (impacts': map<string, WebImpact>)
    requires forall key :: key in WEB_KEYS ==> key in pending
    ensures forall key :: key in impacts' <==> key in impacts || (key in WEB_KEYS && pending[key] != [])
    ensures forall key :: key in impacts ==> impacts'[key] == impacts[key]
    ensures forall key :: key in WEB_KEYS && key !in impacts && pending[key] != [] ==>
      impacts'[key] == WebImpact(NEUTRAL, None, pending[key])
  {
    WebKeysDistinct();
    impacts' := impacts;
    var j := 0;
    while j < |WEB_KEYS|
      invariant 0 <= j <= |WEB_KEYS|
      invariant forall key :: key in impacts' <==> key in impacts || (key in WEB_KEYS[..j] && pending[key] != [])
      invariant forall key :: key in impacts ==> impacts'[key] == impacts[key]
      invariant forall key :: key in WEB_KEYS[..j] && key !in impacts && pending[key] != [] ==>
        impacts'[key] == WebImpact(NEUTRAL, None, pending[key])
    {
      var key := WEB_KEYS[j];
      assert WEB_KEYS[..j + 1] == WEB_KEYS[..j] + [key];
      assert key !in WEB_KEYS[..j];
      var ids := pending[key];
      if key !in impacts' && ids != [] {
        impacts' := impacts'[key := WebImpact(NEUTRAL, None, ids)];
      }
      j := j + 1;
    }
    assert WEB_KEYS[..j] == WEB_KEYS;
  }

  /** What the two dictionaries hold once the sections are walked becomes the
      `impacts` of the output: an analysed topic keeps its entry with the ids
      linked to it, and another topic gets one exactly when ids are linked to it. */
  lemma FinalImpacts(analyses: map<string, TopicAnalysis>, base: map<string, WebImpact>,
                     impacts: map<string, WebImpact>, pending: map<string, seq<string>>,
                     final: map<string, WebImpact>, linked: string -> seq<string>)
    requires forall t: Topic :: WebKey(t) in base <==> t.Name() in analyses
    requires forall t: Topic :: t.Name() in analyses ==>
      base[WebKey(t)] == WebImpact(analyses[t.Name()].analysis.score, Some(analyses[t.Name()].analysis), [])
    requires Holds(impacts, pending, base, linked)
    requires forall key :: key in final <==> key in impacts || (key in WEB_KEYS && pending[key] != [])
    requires forall key :: key in impacts ==> final[key] == impacts[key]
    requires forall key :: key in WEB_KEYS && key !in impacts && pending[key] != [] ==>
      final[key] == WebImpact(NEUTRAL, None, pending[key])
    ensures forall key :: key in final ==> key in WEB_KEYS
    ensures forall t: Topic :: t.Name() in analyses ==>
      && WebKey(t) in final
      && final[WebKey(t)] == WebImpact(analyses[t.Name()].analysis.score, Some(analyses[t.Name()].analysis), linked(WebKey(t)))
    ensures forall t: Topic :: t.Name() !in analyses ==>
      && (WebKey(t) in final <==> linked(WebKey(t)) != [])
      && (WebKey(t) in final ==> final[WebKey(t)] == WebImpact(NEUTRAL, None, linked(WebKey(t))))
  {
    WebKeysDistinct();
  }

  /** The loop over `keyConcerns`: one entry per concern, in order. */
  method ConvertConcerns(concerns: seq<Concern>) returns (out: seq<WebConcern>)
    ensures |out| == |concerns|
    ensures forall j :: 0 <= j < |out| ==> out[j] == ToWebConcern(concerns[j])
  {
    out := [];
    var k := 0;
    while k < |concerns|
      invariant 0 <= k <= |concerns|
      invariant |out| == k
      invariant forall j :: 0 <= j < k ==> out[j] == ToWebConcern(concerns[j])
    {
      var c := concerns[k];
      out := out + [WebConcern(c.id, c.title, c.severity, c.description, c.relatedProvisions, [])];
      k := k + 1;
    }
  }

  /** The analyses present in the bill (`bill_data.get('impactAnalyses', {})`). */
  function Analyses(b: BillData): map<string, TopicAnalysis> {
    b.impactAnalyses.GetOr(map[])
  }

  /** The entry of a provision in `provisions`. */
  function ToWebProvision(s: Section): WebProvision {
    WebProvision(s.id, s.index, s.title, s.summary.GetOr(""), s.rawText, RelatedKeys(LevelsOf(s)))
  }

  /** The entry of a concern in `keyConcerns`. */
  function ToWebConcern(c: Concern): WebConcern {
    WebConcern(c.id, c.title, c.severity, c.description, c.relatedProvisions, [])
  }

  /** The `impacts` and `provisions` of `transform_bill`: the three loops
      building them from the analyses and the sections. */
  method Link(sections: seq<Section>, analyses: map<string, TopicAnalysis>)
    returns (impacts: map<string, WebImpact>, provisions: seq<WebProvision>)
    ensures provisions == WebProvisions(Provisions(sections))
    ensures forall key :: key in impacts ==> key in WEB_KEYS
    ensures forall t: Topic :: t.Name() in analyses ==>
      && WebKey(t) in impacts
      && impacts[WebKey(t)] == WebImpact(analyses[t.Name()].analysis.score, Some(analyses[t.Name()].analysis),
                                         LinksOf(provisions, WebKey(t)))
    ensures forall t: Topic :: t.Name() !in analyses ==>
      && (WebKey(t) in impacts <==> LinksOf(provisions, WebKey(t)) != [])
      && (WebKey(t) in impacts ==> impacts[WebKey(t)] == WebImpact(NEUTRAL, None, LinksOf(provisions, WebKey(t))))
  {
    impacts := InitialImpacts(analyses);
    ghost var base := impacts;
    var pending := map[WEB_KEYS[0] := [], WEB_KEYS[1] := [], WEB_KEYS[2] := [], WEB_KEYS[3] := []];
    impacts, pending, provisions := LinkSections(sections, impacts, pending, base);
    ghost var walked := impacts;
    impacts := LinkPending(impacts, pending);
    FinalImpacts(analyses, base, walked, pending, impacts, key => LinksOf(provisions, key));
  }

  /** `transform_bill`. */
  method TransformBill(b: BillData, filename: string) returns (w: WebBill)
    ensures w.id == Slugify(filename)
    ensures b.executiveSummary.Some? && b.executiveSummary.value != "" ==> w.summary == b.executiveSummary.value
    ensures b.executiveSummary.None? || b.executiveSummary.value == "" ==> w.summary == "Analysis of " + filename
    ensures w.title == if b.metadata.Some? then b.metadata.value.title else filename
    ensures w.pdfPath == if b.metadata.Some? then b.metadata.value.pdfPath else None
    // the provisions, in section order
    ensures w.provisions == WebProvisions(Provisions(b.sections))
    // the impacts: one per analysed topic, one per other topic some provision relates to
    ensures forall key :: key in w.impacts ==> key in WEB_KEYS
    ensures forall t: Topic :: t.Name() in Analyses(b) ==>
      && WebKey(t) in w.impacts
      && w.impacts[WebKey(t)] == WebImpact(Analyses(b)[t.Name()].analysis.score, Some(Analyses(b)[t.Name()].analysis),
                                           LinksOf(w.provisions, WebKey(t)))
    ensures forall t: Topic :: t.Name() !in Analyses(b) ==>
      && (WebKey(t) in w.impacts <==> LinksOf(w.provisions, WebKey(t)) != [])
      && (WebKey(t) in w.impacts ==> w.impacts[WebKey(t)] == WebImpact(NEUTRAL, None, LinksOf(w.provisions, WebKey(t))))
    // the concerns, one to one and in order
    ensures |w.keyConcerns| == |b.keyConcerns.GetOr([])|
    ensures forall j :: 0 <= j < |w.keyConcerns| ==>
      && w.keyConcerns[j].id == b.keyConcerns.GetOr([])[j].id
      && w.keyConcerns[j].title == b.keyConcerns.GetOr([])[j].title
      && w.keyConcerns[j].severity == b.keyConcerns.GetOr([])[j].severity
      && w.keyConcerns[j].description == b.keyConcerns.GetOr([])[j].description
      && w.keyConcerns[j].relatedProvisions == b.keyConcerns.GetOr([])[j].relatedProvisions
      && w.keyConcerns[j].relatedImpacts == []
    ensures w.notebookLMVideo == Video("", VIDEO_DURATION) && w.deadline == DEADLINE
    ensures w.submissionMethod == SUBMISSION_METHOD && w.relatedBills == []
  {
    var summary := b.executiveSummary.GetOr("");
    if summary == "" {
      summary := "Analysis of " + filename;
    }
    var impacts, provisions := Link(b.sections, b.impactAnalyses.GetOr(map[]));
    var keyConcerns := ConvertConcerns(b.keyConcerns.GetOr([]));
    var title := if b.metadata.Some? then b.metadata.value.title else filename;
    var pdfPath := if b.metadata.Some? then b.metadata.value.pdfPath else None;
    var billId := Slugify(filename);
    w := WebBill(billId, title, summary, pdfPath, impacts, keyConcerns, provisions,
                 Video("", VIDEO_DURATION), DEADLINE, SUBMISSION_METHOD, []);
  }

  /** An entry relating to a topic is linked from that topic's impact, so
      the front end finds the provision from the topic and the topic from
      the provision. */
  lemma RelatedTopicIsLinked(provs: seq<WebProvision>, j: nat, t: Topic)
    requires j < |provs| && WebKey(t) in provs[j].relatedImpacts
    ensures provs[j].id in LinksOf(provs, WebKey(t))
  {
    LinksMembers(provs, WebKey(t), provs[j].id);
  }
}
