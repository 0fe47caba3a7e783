/** `pipeline/scripts/shared.py`: the slug function and the enumerations
    every stage shares (topics, impact levels, severities, categories). */
module Shared {
  import opened Text

  // ---------------------------------------------------------------- slugify

  /** After lower-casing, the characters the first substitution keeps:
      `[a-z0-9\s-]`. */
  predicate Kept(c: char) {
    IsSlugChar(c) || IsSpace(c)
  }

  /** A character that may appear in a slug: `a-z`, `0-9` or `-`. */
  predicate IsSlugChar(c: char) {
    IsLowerLetter(c) || IsDigit(c) || c == '-'
  }

  predicate NoDoubleHyphen(s: string) {
    forall i :: 0 <= i < |s| - 1 ==> !(s[i] == '-' && s[i + 1] == '-')
  }

  /** The shape of every slug: only slug characters, no `--`, and no hyphen
      at either end. */
  predicate IsSlug(s: string) {
    && (forall i :: 0 <= i < |s| ==> IsSlugChar(s[i]))
    && NoDoubleHyphen(s)
    && (s == [] || (s[0] != '-' && s[|s| - 1] != '-'))
  }

  /** `re.sub(r'[^a-z0-9\s-]', '', text)`: every other character is deleted. */
  function DropDisallowed(s: string): (r: string)
    ensures |r| <= |s|
    ensures forall i :: 0 <= i < |r| ==> Kept(r[i])
  {
    if s == [] then ""
    else if Kept(s[0]) then [s[0]] + DropDisallowed(s[1..])
    else DropDisallowed(s[1..])
  }

  /** `s` without its leading whitespace run. */
  function DropSpaces(s: string): (r: string)
    ensures |r| <= |s| && r == s[|s| - |r|..]
    ensures r == [] || !IsSpace(r[0])
  {
    if s != [] && IsSpace(s[0]) then DropSpaces(s[1..]) else s
  }

  /** `re.sub(r'\s+', '-', text)`: each maximal whitespace run becomes one hyphen. */
  function HyphenateSpaces(s: string): (r: string)
    requires forall i :: 0 <= i < |s| ==> Kept(s[i])
    ensures forall i :: 0 <= i < |r| ==> IsSlugChar(r[i])
    ensures |r| <= |s|
    decreases |s|
  {
    if s == [] then ""
    else if IsSpace(s[0]) then "-" + HyphenateSpaces(DropSpaces(s[1..]))
    else
      var rest := HyphenateSpaces(s[1..]);
      assert Kept(s[0]);
      assert forall i :: 0 < i < |[s[0]] + rest| ==> ([s[0]] + rest)[i] == rest[i - 1];
      [s[0]] + rest
  }

  /** `s` without its leading run of hyphens. */
  function DropHyphens(s: string): (r: string)
    ensures |r| <= |s|
    ensures r == [] || r[0] != '-'
  {
    if s != [] && s[0] == '-' then DropHyphens(s[1..]) else s
  }

  /** What is left is the end of `s`. */
  lemma {:induction false} DropHyphensSlice(s: string)
    ensures DropHyphens(s) == s[|s| - |DropHyphens(s)|..]
  {
    if s != [] && s[0] == '-' {
      DropHyphensSlice(s[1..]);
      assert s[1..][|s| - 1 - |DropHyphens(s)|..] == s[|s| - |DropHyphens(s)|..];
    }
  }

  /** Only hyphens are dropped, and a non-hyphen is what stops the drop. */
  lemma {:induction false} DropHyphensRun(h: string, z: string)
    requires forall i :: 0 <= i < |h| ==> h[i] == '-'
    requires z == [] || z[0] != '-'
    ensures DropHyphens(h + z) == z
    decreases |h|
  {
    if h != [] {
      assert (h + z)[1..] == h[1..] + z;
      DropHyphensRun(h[1..], z);
    } else {
      assert h + z == z;
    }
  }

  /** `re.sub(r'-+', '-', text)`: each maximal hyphen run becomes one hyphen. */
  function SquashHyphens(s: string): (r: string)
    requires forall i :: 0 <= i < |s| ==> IsSlugChar(s[i])
    ensures forall i :: 0 <= i < |r| ==> IsSlugChar(r[i])
    ensures NoDoubleHyphen(r)
    ensures |r| <= |s|
    ensures r != [] <==> s != []
    ensures r != [] ==> (r[0] == '-' <==> s[0] == '-')
    decreases |s|
  {
    if s == [] then ""
    else
      var t := if s[0] == '-' then DropHyphens(s[1..]) else s[1..];
      DropHyphensSlice(s[1..]);
      assert t == s[|s| - |t|..];
      SlugCharsOfSuffix(s, |s| - |t|);
      var rest := SquashHyphens(t);
      ConsSquashed(s[0], rest);
      [s[0]] + rest
  }

  /** A character other than a hyphen is kept as it is. */
  lemma SquashKeepsNonHyphen(c: char, z: string)
    requires IsSlugChar(c) && c != '-'
    requires forall i :: 0 <= i < |z| ==> IsSlugChar(z[i])
    ensures SquashHyphens([c] + z) == [c] + SquashHyphens(z)
  {
    assert ([c] + z)[1..] == z;
  }

  /** A run of hyphens becomes exactly one hyphen. */
  lemma HyphenRunIsOneHyphen(h: string, z: string)
    requires h != [] && forall i :: 0 <= i < |h| ==> h[i] == '-'
    requires forall i :: 0 <= i < |z| ==> IsSlugChar(z[i])
    requires z == [] || z[0] != '-'
    ensures SquashHyphens(h + z) == "-" + SquashHyphens(z)
  {
    var s := h + z;
    forall i | 0 <= i < |s| ensures IsSlugChar(s[i]) {
      if i >= |h| {
        assert s[i] == z[i - |h|];
      }
    }
    assert s[0] == '-';
    assert s[1..] == h[1..] + z;
    DropHyphensRun(h[1..], z);
  }

  lemma SlugCharsOfSuffix(s: string, k: nat)
    requires forall i :: 0 <= i < |s| ==> IsSlugChar(s[i])
    requires k <= |s|
    ensures forall i :: 0 <= i < |s[k..]| ==> IsSlugChar(s[k..][i])
  {
    forall i | 0 <= i < |s[k..]| ensures IsSlugChar(s[k..][i]) {
      assert s[k..][i] == s[k + i];
    }
  }

  /** Putting a slug character before a squashed string keeps it squashed
      unless both are hyphens. */
  lemma ConsSquashed(c: char, rest: string)
    requires IsSlugChar(c) && forall i :: 0 <= i < |rest| ==> IsSlugChar(rest[i])
    requires NoDoubleHyphen(rest)
    requires c == '-' ==> rest == [] || rest[0] != '-'
    ensures forall i :: 0 <= i < |[c] + rest| ==> IsSlugChar(([c] + rest)[i])
    ensures NoDoubleHyphen([c] + rest)
  {
    var r := [c] + rest;
    forall i | 0 < i < |r| ensures r[i] == rest[i - 1] {
    }
  }

  /** `s` without its trailing run of hyphens. */
  function DropTrailingHyphens(s: string): (r: string)
    ensures |r| <= |s|
    ensures r == [] || r[|r| - 1] != '-'
  {
    if s != [] && s[|s| - 1] == '-' then DropTrailingHyphens(s[..|s| - 1]) else s
  }

  /** What is left is the start of `s`. */
  lemma {:induction false} DropTrailingHyphensSlice(s: string)
    ensures DropTrailingHyphens(s) == s[..|DropTrailingHyphens(s)|]
  {
    if s != [] && s[|s| - 1] == '-' {
      var r := DropTrailingHyphens(s[..|s| - 1]);
      DropTrailingHyphensSlice(s[..|s| - 1]);
      assert s[..|s| - 1][..|r|] == s[..|r|];
    }
  }

  /** `text.strip('-')`: the hyphens at both ends go; what is left is one
      contiguous piece of the input. */
  function StripHyphens(s: string): (r: string)
    ensures r == [] || (r[0] != '-' && r[|r| - 1] != '-')
  {
    var t := DropHyphens(s);
    DropTrailingHyphensSlice(t);
    DropTrailingHyphens(t)
  }

  lemma StripHyphensSlice(s: string)
    ensures LeadingHyphens(s) + |StripHyphens(s)| <= |s|
    ensures StripHyphens(s) == s[LeadingHyphens(s)..LeadingHyphens(s) + |StripHyphens(s)|]
  {
    var t := DropHyphens(s);
    var r := DropTrailingHyphens(t);
    DropHyphensSlice(s);
    DropTrailingHyphensSlice(t);
    assert r == s[|s| - |t|..|s| - |t| + |r|];
  }

  /** The length of the leading hyphen run of `s`. */
  /** `strip('-')` removes hyphens only: every character before or after
      the kept piece is a hyphen. */
  lemma StripHyphensRemovesOnlyHyphens(s: string)
    ensures LeadingHyphens(s) + |StripHyphens(s)| <= |s|
    ensures forall i :: 0 <= i < LeadingHyphens(s) ==> s[i] == '-'
    ensures forall i :: LeadingHyphens(s) + |StripHyphens(s)| <= i < |s| ==> s[i] == '-'
  {
    StripHyphensSlice(s);
    var t := DropHyphens(s);
    DropHyphensSlice(s);
    DropHyphensHyphens(s);
    DropTrailingHyphensSlice(t);
    DropTrailingHyphensHyphens(t);
    forall i | LeadingHyphens(s) + |StripHyphens(s)| <= i < |s| ensures s[i] == '-' {
      assert s[i] == t[i - LeadingHyphens(s)];
    }
  }

  /** What `DropHyphens` removes is hyphens. */
  lemma {:induction false} DropHyphensHyphens(s: string)
    ensures forall i :: 0 <= i < |s| - |DropHyphens(s)| ==> s[i] == '-'
  {
    if s != [] && s[0] == '-' {
      DropHyphensHyphens(s[1..]);
      forall i | 1 <= i < |s| - |DropHyphens(s)| ensures s[i] == '-' {
        assert s[i] == s[1..][i - 1];
      }
    }
  }

  /** What `DropTrailingHyphens` removes is hyphens. */
  lemma {:induction false} DropTrailingHyphensHyphens(s: string)
    ensures forall i :: |DropTrailingHyphens(s)| <= i < |s| ==> s[i] == '-'
  {
    if s != [] && s[|s| - 1] == '-' {
      DropTrailingHyphensHyphens(s[..|s| - 1]);
      forall i | |DropTrailingHyphens(s)| <= i < |s| - 1 ensures s[i] == '-' {
        assert s[i] == s[..|s| - 1][i];
      }
    }
  }

  function LeadingHyphens(s: string): nat {
    |s| - |DropHyphens(s)|
  }

  /** `slugify` from shared.py (also copied verbatim into 2_docling_to_json.py
      and 8_generate_key_concerns.py). Lower-casing is ASCII only. */
  function Slugify(text: string): (r: string)
    ensures IsSlug(r)
  {
    var squashed := SquashHyphens(HyphenateSpaces(DropDisallowed(Lower(text))));
    StrippedIsSlug(squashed);
    StripHyphens(squashed)
  }

  /** Stripping the end hyphens off a squashed string of slug characters
      leaves a slug. */
  lemma StrippedIsSlug(s: string)
    requires forall i :: 0 <= i < |s| ==> IsSlugChar(s[i])
    requires NoDoubleHyphen(s)
    ensures IsSlug(StripHyphens(s))
  {
    StripHyphensSlice(s);
    var a := LeadingHyphens(s);
    SliceOfSquashed(s, a, a + |StripHyphens(s)|);
  }

  /** A slice of a squashed string of slug characters is one too. */
  lemma SliceOfSquashed(s: string, a: nat, b: nat)
    requires a <= b <= |s|
    requires forall i :: 0 <= i < |s| ==> IsSlugChar(s[i])
    requires NoDoubleHyphen(s)
    ensures forall i :: 0 <= i < |s[a..b]| ==> IsSlugChar(s[a..b][i])
    ensures NoDoubleHyphen(s[a..b])
  {
    assert forall i :: 0 <= i < b - a ==> s[a..b][i] == s[a + i];
  }

  // ------------------------------------------------------- slugify lemmas

  lemma {:induction false} DropDisallowedAppend(a: string, b: string)
    ensures DropDisallowed(a + b) == DropDisallowed(a) + DropDisallowed(b)
  {
    if a != [] {
      assert (a + b)[0] == a[0];
      assert (a + b)[1..] == a[1..] + b;
      DropDisallowedAppend(a[1..], b);
    } else {
      assert a + b == b;
    }
  }

  /** A character that is not kept after lower-casing is deleted outright:
      removing it from the input does not change the slug. */
  lemma DeletedNotReplaced(a: string, c: char, b: string)
    requires !Kept(LowerChar(c))
    ensures Slugify(a + [c] + b) == Slugify(a + b)
  {
    assert Lower([c]) == [LowerChar(c)];
    LowerAppend(a, [c]);
    LowerAppend(a + [c], b);
    LowerAppend(a, b);
    assert Lower(a + [c] + b) == Lower(a) + [LowerChar(c)] + Lower(b);
    assert DropDisallowed([LowerChar(c)]) == [];
    DropDisallowedAppend(Lower(a), [LowerChar(c)]);
    DropDisallowedAppend(Lower(a) + [LowerChar(c)], Lower(b));
    DropDisallowedAppend(Lower(a), Lower(b));
    assert DropDisallowed(Lower(a + [c] + b)) == DropDisallowed(Lower(a + b));
  }

  lemma {:induction false} DropSpacesOfSpaces(w: string, y: string)
    requires AllSpace(w)
    requires y == [] || !IsSpace(y[0])
    ensures DropSpaces(w + y) == y
  {
    if w != [] {
      assert (w + y)[1..] == w[1..] + y;
      DropSpacesOfSpaces(w[1..], y);
    }
  }

  lemma SpacesThenKept(w: string, y: string)
    requires AllSpace(w)
    requires forall i :: 0 <= i < |y| ==> Kept(y[i])
    ensures forall i :: 0 <= i < |w + y| ==> Kept((w + y)[i])
  {
    forall i | 0 <= i < |w + y|
      ensures Kept((w + y)[i])
    {
      if i >= |w| {
        assert (w + y)[i] == y[i - |w|];
      }
    }
  }

  /** A non-empty whitespace run, followed by a non-space, turns into exactly
      one hyphen. */
  lemma SpaceRunIsOneHyphen(w: string, y: string)
    requires w != [] && AllSpace(w)
    requires forall i :: 0 <= i < |y| ==> Kept(y[i])
    requires y == [] || !IsSpace(y[0])
    ensures HyphenateSpaces(w + y) == "-" + HyphenateSpaces(y)
  {
    var s := w + y;
    assert s[1..] == w[1..] + y;
    DropSpacesOfSpaces(w[1..], y);
    SpacesThenKept(w, y);
    assert HyphenateSpaces(s) == "-" + HyphenateSpaces(DropSpaces(s[1..]));
  }

  lemma {:induction false} LowerOfSlug(s: string)
    requires forall i :: 0 <= i < |s| ==> IsSlugChar(s[i])
    ensures Lower(s) == s
  {
  }

  lemma {:induction false} DropDisallowedOfSlug(s: string)
    requires forall i :: 0 <= i < |s| ==> IsSlugChar(s[i])
    ensures DropDisallowed(s) == s
  {
    if s != [] {
      DropDisallowedOfSlug(s[1..]);
    }
  }

  lemma {:induction false} HyphenateSpacesOfSlug(s: string)
    requires forall i :: 0 <= i < |s| ==> IsSlugChar(s[i])
    ensures HyphenateSpaces(s) == s
  {
    if s != [] {
      HyphenateSpacesOfSlug(s[1..]);
    }
  }

  lemma {:induction false} SquashHyphensOfSquashed(s: string)
    requires forall i :: 0 <= i < |s| ==> IsSlugChar(s[i])
    requires NoDoubleHyphen(s)
    ensures SquashHyphens(s) == s
  {
    if s != [] {
      SquashHyphensOfSquashed(s[1..]);
      if s[0] == '-' {
        assert s[1..] == [] || s[1] != '-';
        assert DropHyphens(s[1..]) == s[1..];
      }
    }
  }

  lemma StripHyphensOfStripped(s: string)
    requires s == [] || (s[0] != '-' && s[|s| - 1] != '-')
    ensures StripHyphens(s) == s
  {
  }

  /** Every slug is its own slug. */
  lemma SlugIsFixedPoint(s: string)
    requires IsSlug(s)
    ensures Slugify(s) == s
  {
    LowerOfSlug(s);
    DropDisallowedOfSlug(s);
    HyphenateSpacesOfSlug(s);
    SquashHyphensOfSquashed(s);
    StripHyphensOfStripped(s);
  }

  /** `slugify` is idempotent. */
  lemma SlugifyIdempotent(text: string)
    ensures Slugify(Slugify(text)) == Slugify(text)
  {
    SlugIsFixedPoint(Slugify(text));
  }

  /** A slug character that is not a hyphen, such as a digit. */
  predicate IsSlugWordChar(c: char) {
    IsSlugChar(c) && c != '-'
  }

  lemma {:induction false} HyphenateSpacesPrefix(d: string, y: string)
    requires forall i :: 0 <= i < |d| ==> IsSlugWordChar(d[i])
    requires forall i :: 0 <= i < |y| ==> Kept(y[i])
    ensures forall i :: 0 <= i < |d + y| ==> Kept((d + y)[i])
    ensures HyphenateSpaces(d + y) == d + HyphenateSpaces(y)
  {
    assert forall i :: 0 <= i < |d + y| ==> (d + y)[i] == if i < |d| then d[i] else y[i - |d|];
    if d != [] {
      var s := d + y;
      assert s[0] == d[0] && s[1..] == d[1..] + y;
      WordCharNotSpace(d[0]);
      HyphenateSpacesPrefix(d[1..], y);
      assert HyphenateSpaces(s) == [d[0]] + HyphenateSpaces(s[1..]);
      assert d == [d[0]] + d[1..];
    } else {
      assert d + y == y;
    }
  }

  lemma WordCharNotSpace(c: char)
    requires IsSlugWordChar(c)
    ensures !IsSpace(c)
  {
  }

  lemma {:induction false} SquashHyphensPrefix(d: string, z: string)
    requires forall i :: 0 <= i < |d| ==> IsSlugWordChar(d[i])
    requires forall i :: 0 <= i < |z| ==> IsSlugChar(z[i])
    ensures forall i :: 0 <= i < |d + z| ==> IsSlugChar((d + z)[i])
    ensures SquashHyphens(d + z) == d + SquashHyphens(z)
  {
    assert forall i :: 0 <= i < |d + z| ==> (d + z)[i] == if i < |d| then d[i] else z[i - |d|];
    if d != [] {
      assert (d + z)[1..] == d[1..] + z;
      SquashHyphensPrefix(d[1..], z);
    } else {
      assert d + z == z;
    }
  }

  lemma {:induction false} DropTrailingHyphensPrefix(d: string, w: string)
    requires d != [] && d[|d| - 1] != '-'
    ensures DropTrailingHyphens(d + w) == d + DropTrailingHyphens(w)
    decreases |w|
  {
    if w == [] {
      assert d + w == d;
    } else if w[|w| - 1] == '-' {
      assert (d + w)[..|d + w| - 1] == d + w[..|w| - 1];
      DropTrailingHyphensPrefix(d, w[..|w| - 1]);
    }
  }

  /** A slug keeps the leading run of letters and digits of its input, when
      that run is already lower-case: a bill named "15. Some Bill" gets a
      slug starting "15". */
  lemma SlugKeepsLeadingWord(d: string, rest: string)
    requires d != [] && forall i :: 0 <= i < |d| ==> IsSlugWordChar(d[i])
    ensures |d| <= |Slugify(d + rest)| && Slugify(d + rest)[..|d|] == d
  {
    LowerAppend(d, rest);
    LowerOfSlug(d);
    var a := Lower(rest);
    DropDisallowedAppend(d, a);
    DropDisallowedOfSlug(d);
    var b := DropDisallowed(a);
    HyphenateSpacesPrefix(d, b);
    var c := HyphenateSpaces(b);
    SquashHyphensPrefix(d, c);
    var e := SquashHyphens(c);
    assert (d + e)[0] != '-';
    assert DropHyphens(d + e) == d + e;
    DropTrailingHyphensPrefix(d, e);
    assert Slugify(d + rest) == d + DropTrailingHyphens(e);
  }

  // ---------------------------------------------------------- enumerations

  /** The `Topic` enumeration, in declaration order. */
  datatype Topic = DigitalInnovation | FreedomOfSpeech | PrivacyDataRights | BusinessEnvironment {
    function Name(): string {
      match this
      case DigitalInnovation => "Digital Innovation"
      case FreedomOfSpeech => "Freedom of Speech"
      case PrivacyDataRights => "Privacy & Data Rights"
      case BusinessEnvironment => "Business Environment"
    }

    /** The topic's position in the enumeration and in `TOPICS`. */
    function Index(): (i: nat)
      ensures i < |ALL_TOPICS| && ALL_TOPICS[i] == this
    {
      match this
      case DigitalInnovation => 0
      case FreedomOfSpeech => 1
      case PrivacyDataRights => 2
      case BusinessEnvironment => 3
    }
  }

  /** The members of `Topic`, in declaration order. */
  const ALL_TOPICS: seq<Topic> := [DigitalInnovation, FreedomOfSpeech, PrivacyDataRights, BusinessEnvironment]

  /** `TOPICS = [topic.value for topic in Topic]`. */
  const TOPICS: seq<string> := [DigitalInnovation.Name(), FreedomOfSpeech.Name(),
                                PrivacyDataRights.Name(), BusinessEnvironment.Name()]

  lemma TopicsAreTheFourDistinctNames()
    ensures |TOPICS| == 4
    ensures forall i, j :: 0 <= i < j < |TOPICS| ==> TOPICS[i] != TOPICS[j]
    ensures forall t: Topic :: t.Name() in TOPICS
    ensures |ALL_TOPICS| == |TOPICS|
    ensures forall t: Topic :: t in ALL_TOPICS
    ensures forall j :: 0 <= j < |TOPICS| ==> TOPICS[j] == ALL_TOPICS[j].Name()
  {
    forall t: Topic ensures t in ALL_TOPICS {
      assert ALL_TOPICS[t.Index()] == t;
    }
  }

  /** Every topic is in the enumeration's list. */
  lemma EveryTopicListed()
    ensures forall t: Topic :: t in ALL_TOPICS
  {
    forall t: Topic ensures t in ALL_TOPICS {
      assert ALL_TOPICS[t.Index()] == t;
    }
  }

  /** Different topics have different names. */
  lemma NamesDistinct(t: Topic, u: Topic)
    requires t != u
    ensures t.Name() != u.Name()
  {
    assert t.Name()[0] != u.Name()[0];
  }

  /** `TOPICS` lists each topic's name at the topic's index. */
  lemma NameListed(t: Topic)
    ensures t.Index() < |TOPICS| && TOPICS[t.Index()] == t.Name()
  {
  }

  /** Entry `j` of `TOPICS` names entry `j` of the enumeration. */
  lemma ListedName(j: nat)
    requires j < |TOPICS|
    ensures j < |ALL_TOPICS| && TOPICS[j] == ALL_TOPICS[j].Name() && ALL_TOPICS[j].Index() == j
  {
  }

  /** `ALL_TOPICS` lists each topic at its own index. */
  lemma IndexOfListed(j: nat)
    requires j < |ALL_TOPICS|
    ensures ALL_TOPICS[j].Index() == j
  {
  }

  /** The `ImpactLevel` enumeration, from most negative to most positive. */
  datatype ImpactLevel =
    | SevereNegative | HighNegative | MediumNegative | LowNegative
    | Neutral
    | LowPositive | MediumPositive | HighPositive | SeverePositive
  {
    function Name(): string {
      match this
      case SevereNegative => "severe-negative"
      case HighNegative => "high-negative"
      case MediumNegative => "medium-negative"
      case LowNegative => "low-negative"
      case Neutral => "neutral"
      case LowPositive => "low-positive"
      case MediumPositive => "medium-positive"
      case HighPositive => "high-positive"
      case SeverePositive => "severe-positive"
    }

    /** Position on the scale: -4 (severe-negative) .. 0 (neutral) .. 4 (severe-positive). */
    function Rank(): int {
      match this
      case SevereNegative => -4
      case HighNegative => -3
      case MediumNegative => -2
      case LowNegative => -1
      case Neutral => 0
      case LowPositive => 1
      case MediumPositive => 2
      case HighPositive => 3
      case SeverePositive => 4
    }
  }

  lemma ImpactLevelScale(a: ImpactLevel, b: ImpactLevel)
    ensures -4 <= a.Rank() <= 4
    ensures a.Rank() == b.Rank() <==> a == b
    ensures a.Name() == b.Name() <==> a == b
    ensures a.Rank() == 0 <==> a == Neutral
    ensures a.Name() != NONE
  {
  }

  // The level strings the stages compare against.
  const SEVERE_NEGATIVE := "severe-negative"
  const HIGH_NEGATIVE := "high-negative"
  const SEVERE_POSITIVE := "severe-positive"
  const HIGH_POSITIVE := "high-positive"
  const NEUTRAL := "neutral"
  /** What `levels.get(topic, 'none')` reads when a topic has no level. */
  const NONE := "none"

  /** The `Severity` enumeration of key concerns. */
  datatype Severity = Critical | High | Medium | Low {
    function Name(): string {
      match this
      case Critical => "critical"
      case High => "high"
      case Medium => "medium"
      case Low => "low"
    }
  }

  // Section categories.
  const CATEGORY_PROVISION := "provision"
  const CATEGORY_PREAMBLE := "preamble"
  const CATEGORY_METADATA := "metadata"
}
