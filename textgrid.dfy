/**
 * Reading Praat TextGrid files: checking that a word and a phone tier exist,
 * guessing the role of each interval tier (spelling, segments, attributes),
 * building the annotation schema from one or more TextGrids, and turning
 * the tiers of one TextGrid into discourse data.
 *
 * A TextGrid arrives already parsed: a list of interval tiers, each with its
 * intervals and the two summaries the reader asks of it (mean label length
 * and distinct labels). Point tiers are not part of this model.
 */
module TextGrid {

  import opened Options
  import opened Text
  import opened Discourse

  /** One interval of a tier: start and end time in seconds and its label. */
  datatype Interval = Interval(minTime: real, maxTime: real, mark: string)

  /** An interval tier and the summaries the reader asks of it. */
  datatype IntervalTier = IntervalTier(
    name: string,
    intervals: seq<Interval>,
    meanLabelLength: real,
    uniqueLabels: seq<string>)

  /** Delimiters tried, in this order, on the labels of a tier guessed to be a transcription. */
  const TextGridDelimiters: seq<char> := ['.', ' ', ';', ',']

  // ---------------------------------------------------------------------------
  // Tier names
  // ---------------------------------------------------------------------------

  /** A tier is a word tier when the word tier name occurs in its name, ignoring case. */
  function IsWordTier(tierName: string, wordTierName: string): (r: bool)
    ensures r <==> exists i :: OccursAt(Lower(tierName), Lower(wordTierName), i)
  {
    ContainsIff(Lower(tierName), Lower(wordTierName));
    Contains(Lower(tierName), Lower(wordTierName))
  }

  /** A tier is a phone tier when the phone tier name occurs in its name, ignoring case. */
  function IsPhoneTier(tierName: string, phoneTierName: string): (r: bool)
    ensures r <==> exists i :: OccursAt(Lower(tierName), Lower(phoneTierName), i)
  {
    ContainsIff(Lower(tierName), Lower(phoneTierName));
    Contains(Lower(tierName), Lower(phoneTierName))
  }

  datatype TierRole = WordRole | PhoneRole

  /** No tier matched the given word or phone tier name. */
  datatype TierError = TierError(role: TierRole, name: string)

  /** A missing or empty tier name falls back to a default. */
  function DefaultName(given: Option<string>, fallback: string): (r: string)
    ensures given.None? || given.value == [] ==> r == fallback
    ensures given.Some? && given.value != [] ==> r == given.value
  {
    if given.None? || given.value == [] then fallback else given.value
  }

  /**
   * The tier check done before a TextGrid is split by speaker: some tier must
   * match the word tier name (default "word") and some tier the phone tier
   * name (default "phone"), the word tier being checked first.
   */
  method FigureOutTiers(tierNames: seq<string>, wordTierName: Option<string>, phoneTierName: Option<string>)
    returns (r: Result<(string, string), TierError>)
    ensures var w := DefaultName(wordTierName, "word");
            r == Failure(TierError(WordRole, w)) <==> forall t :: t in tierNames ==> !IsWordTier(t, w)
    ensures var w := DefaultName(wordTierName, "word");
            var p := DefaultName(phoneTierName, "phone");
            r == Failure(TierError(PhoneRole, p)) <==>
              (exists t :: t in tierNames && IsWordTier(t, w)) && forall t :: t in tierNames ==> !IsPhoneTier(t, p)
    ensures var w := DefaultName(wordTierName, "word");
            var p := DefaultName(phoneTierName, "phone");
            r.Success? <==>
              (exists t :: t in tierNames && IsWordTier(t, w)) && (exists t :: t in tierNames && IsPhoneTier(t, p))
    ensures r.Success? ==> r.value == (DefaultName(wordTierName, "word"), DefaultName(phoneTierName, "phone"))
  {
    var w := DefaultName(wordTierName, "word");
    var p := DefaultName(phoneTierName, "phone");
    var i := 0;
    while i < |tierNames| && !IsWordTier(tierNames[i], w)
      invariant 0 <= i <= |tierNames|
      invariant forall j :: 0 <= j < i ==> !IsWordTier(tierNames[j], w)
    {
      i := i + 1;
    }
    if i == |tierNames| {
      return Failure(TierError(WordRole, w));
    }
    assert tierNames[i] in tierNames;
    var k := 0;
    while k < |tierNames| && !IsPhoneTier(tierNames[k], p)
      invariant 0 <= k <= |tierNames|
      invariant forall j :: 0 <= j < k ==> !IsPhoneTier(tierNames[j], p)
    {
      k := k + 1;
    }
    if k == |tierNames| {
      return Failure(TierError(PhoneRole, p));
    }
    assert tierNames[k] in tierNames;
    r := Success((w, p));
  }

  // ---------------------------------------------------------------------------
  // Guessing tier roles
  // ---------------------------------------------------------------------------

  /** What is recorded per tier name: position, interval count, mean label length, distinct labels. */
  datatype TierProps = TierProps(position: nat, count: nat, meanLabelLength: real, uniqueCount: nat)

  function PropsAt(tiers: seq<IntervalTier>, i: nat): TierProps
    requires i < |tiers|
  {
    TierProps(i, |tiers[i].intervals|, tiers[i].meanLabelLength, |tiers[i].uniqueLabels|)
  }

  function Names(tiers: seq<IntervalTier>): (r: seq<string>)
    ensures |r| == |tiers| && forall i :: 0 <= i < |tiers| ==> r[i] == tiers[i].name
  {
    seq(|tiers|, i requires 0 <= i < |tiers| => tiers[i].name)
  }

  /** The keys of a dictionary filled in order: each name once, in order of first occurrence. */
  function DistinctInOrder(names: seq<string>): (r: seq<string>)
    ensures forall k :: k in r <==> k in names
    ensures forall i, j :: 0 <= i < j < |r| ==> r[i] != r[j]
    decreases |names|
  {
    if names == [] then []
    else
      var prefix := DistinctInOrder(names[..|names| - 1]);
      assert names == names[..|names| - 1] + [names[|names| - 1]];
      if names[|names| - 1] in prefix then prefix else prefix + [names[|names| - 1]]
  }

  /** The per-name table filled tier by tier; a later tier with the same name overwrites. */
  function TierTable(tiers: seq<IntervalTier>): (r: map<string, TierProps>)
    ensures forall k :: k in r <==> k in Names(tiers)
    decreases |tiers|
  {
    assert tiers != [] ==> Names(tiers) == Names(tiers[..|tiers| - 1]) + [tiers[|tiers| - 1].name];
    if tiers == [] then map[]
    else TierTable(tiers[..|tiers| - 1])[tiers[|tiers| - 1].name := PropsAt(tiers, |tiers| - 1)]
  }

  /**
   * The table has one entry per tier name, holding the properties of the last
   * tier with that name; so distinct names have distinct positions.
   */
  lemma {:induction false} TierTableLast(tiers: seq<IntervalTier>)
    ensures forall k :: k in TierTable(tiers) <==> k in Names(tiers)
    ensures forall k :: k in TierTable(tiers) ==>
      && TierTable(tiers)[k].position < |tiers|
      && tiers[TierTable(tiers)[k].position].name == k
      && TierTable(tiers)[k] == PropsAt(tiers, TierTable(tiers)[k].position)
      && forall j :: TierTable(tiers)[k].position < j < |tiers| ==> tiers[j].name != k
    decreases |tiers|
  {
    if tiers != [] {
      var init := tiers[..|tiers| - 1];
      TierTableLast(init);
      assert Names(tiers) == Names(init) + [tiers[|tiers| - 1].name];
      forall k | k in TierTable(init) && k != tiers[|tiers| - 1].name
        ensures PropsAt(init, TierTable(init)[k].position) == PropsAt(tiers, TierTable(init)[k].position)
      {
      }
    }
  }

  /** `k` stands at index `i` of `keys`, and every earlier name has a smaller mean label length. */
  predicate FirstMaxAt(keys: seq<string>, table: map<string, TierProps>, k: string, i: int)
    requires forall x :: x in keys ==> x in table
    requires k in table
  {
    && 0 <= i < |keys| && keys[i] == k
    && forall j :: 0 <= j < i ==> table[keys[j]].meanLabelLength < table[k].meanLabelLength
  }

  /** `max` over the table by mean label length: the first maximal name, in key order. */
  function MaxMeanKey(keys: seq<string>, table: map<string, TierProps>): (k: string)
    requires |keys| > 0 && forall x :: x in keys ==> x in table
    ensures k in keys
    ensures forall x :: x in keys ==> table[x].meanLabelLength <= table[k].meanLabelLength
    ensures exists i :: FirstMaxAt(keys, table, k, i)
    decreases |keys|
  {
    if |keys| == 1 then
      assert FirstMaxAt(keys, table, keys[0], 0);
      keys[0]
    else
      var m := MaxMeanKey(keys[1..], table);
      assert forall x :: x in keys ==> x == keys[0] || x in keys[1..];
      if table[keys[0]].meanLabelLength >= table[m].meanLabelLength then
        assert FirstMaxAt(keys, table, keys[0], 0);
        keys[0]
      else
        var i :| FirstMaxAt(keys[1..], table, m, i);
        assert forall j :: 1 <= j < i + 1 ==> keys[j] == keys[1..][j - 1];
        assert FirstMaxAt(keys, table, m, i + 1);
        m
  }

  /** `min` over names by position: the name of least position. */
  function MinPositionKey(keys: seq<string>, table: map<string, TierProps>): (k: string)
    requires |keys| > 0 && forall x :: x in keys ==> x in table
    ensures k in keys
    ensures forall x :: x in keys ==> table[k].position <= table[x].position
    decreases |keys|
  {
    if |keys| == 1 then keys[0]
    else
      var m := MinPositionKey(keys[1..], table);
      assert forall x :: x in keys ==> x == keys[0] || x in keys[1..];
      if table[keys[0]].position <= table[m].position then keys[0] else m
  }

  /** The names whose recorded properties equal `v`, in key order. */
  function WithProps(keys: seq<string>, table: map<string, TierProps>, v: TierProps): (r: seq<string>)
    requires forall x :: x in keys ==> x in table
    ensures forall x :: x in r <==> x in keys && table[x] == v
    ensures r == [] <==> forall x :: x in keys ==> table[x] != v
    decreases |keys|
  {
    if keys == [] then []
    else (if table[keys[0]] == v then [keys[0]] else []) + WithProps(keys[1..], table, v)
  }

  /** The names of `keys` not in `drop`, in order. */
  function Without(keys: seq<string>, drop: seq<string>): (r: seq<string>)
    ensures forall x :: x in r <==> x in keys && x !in drop
    ensures r == [] <==> forall x :: x in keys ==> x in drop
    decreases |keys|
  {
    if keys == [] then []
    else
      assert keys == keys[..|keys| - 1] + [keys[|keys| - 1]];
      Without(keys[..|keys| - 1], drop) + (if keys[|keys| - 1] in drop then [] else [keys[|keys| - 1]])
  }

  datatype GuessError = NoIntervalTiers | NoSpellingCandidate

  /** Tier roles: spelling tiers, segment tiers, attribute tiers. */
  datatype Guess = Guess(spellings: seq<string>, segments: seq<string>, attributes: seq<string>)

  /** The guess as the source computes it: the segment entry is the list of likely names itself. */
  datatype GuessAsWritten = GuessAsWritten(spellings: seq<string>, segments: seq<seq<string>>, attributes: seq<string>)

  /** The names whose properties equal the largest mean label length's entry. */
  function LikelySegment(keys: seq<string>, table: map<string, TierProps>): seq<string>
    requires |keys| > 0 && forall x :: x in keys ==> x in table
  {
    WithProps(keys, table, table[MaxMeanKey(keys, table)])
  }

  /**
   * Tier roles as written: the tier of largest mean label length is the
   * segment tier, but the exclusion of segment tiers from the spelling
   * candidates compares a name with a list of names, which never matches; so
   * the spelling tier is the first tier of all, and only it is left out of the
   * attributes.
   */
  function GuessTiersAsWritten(tiers: seq<IntervalTier>): (r: Result<GuessAsWritten, GuessError>)
    ensures r.Failure? <==> tiers == []
    ensures r.Success? ==> r.value.spellings == [MinPositionKey(DistinctInOrder(Names(tiers)), TierTable(tiers))]
  {
    var keys := DistinctInOrder(Names(tiers));
    var table := TierTable(tiers);
    if keys == [] then
      assert tiers != [] ==> tiers[0].name in Names(tiers);
      Failure(NoIntervalTiers)
    else
      var likely := LikelySegment(keys, table);
      var segments := if |likely| == 1 then [likely] else [];
      var spelling := MinPositionKey(keys, table);
      Success(GuessAsWritten([spelling], segments, Without(keys, [spelling])))
  }

  /**
   * Tier roles as intended: the tier of largest mean label length is the
   * segment tier, the first remaining tier is the spelling tier, and every
   * other tier is an attribute tier.
   */
  function GuessTiersIntended(tiers: seq<IntervalTier>): Result<Guess, GuessError>
  {
    GuessFromTable(DistinctInOrder(Names(tiers)), TierTable(tiers))
  }

  function GuessFromTable(keys: seq<string>, table: map<string, TierProps>): Result<Guess, GuessError>
    requires forall x :: x in keys ==> x in table
  {
    if keys == [] then Failure(NoIntervalTiers)
    else
      var likely := LikelySegment(keys, table);
      var segments := if |likely| == 1 then likely else [];
      var candidates := Without(keys, segments);
      if candidates == [] then Failure(NoSpellingCandidate)
      else
        var spelling := MinPositionKey(candidates, table);
        Success(Guess([spelling], segments, Without(keys, segments + [spelling])))
  }

  /** Distinct names never share their recorded properties, so exactly one name is the likeliest segment tier. */
  lemma LikelySegmentUnique(tiers: seq<IntervalTier>)
    requires tiers != []
    ensures var keys := DistinctInOrder(Names(tiers));
            |keys| > 0 && LikelySegment(keys, TierTable(tiers)) == [MaxMeanKey(keys, TierTable(tiers))]
  {
    var keys := DistinctInOrder(Names(tiers));
    var table := TierTable(tiers);
    TierTableLast(tiers);
    assert tiers[0].name in Names(tiers);
    var m := MaxMeanKey(keys, table);
    var likely := WithProps(keys, table, table[m]);
    forall x | x in likely ensures x == m {
      assert tiers[table[x].position].name == x;
    }
    var i :| 0 <= i < |keys| && keys[i] == m;
    WithPropsSingle(keys, table, table[m], i);
  }

  /** A filter over distinct keys that keeps exactly one of them is that one key. */
  lemma {:induction false} WithPropsSingle(keys: seq<string>, table: map<string, TierProps>, v: TierProps, i: nat)
    requires forall x :: x in keys ==> x in table
    requires forall a, b :: 0 <= a < b < |keys| ==> keys[a] != keys[b]
    requires i < |keys| && table[keys[i]] == v
    requires forall x :: x in WithProps(keys, table, v) ==> x == keys[i]
    ensures WithProps(keys, table, v) == [keys[i]]
    decreases |keys|
  {
    if i == 0 {
      forall x | x in keys[1..] ensures table[x] != v {
        var j :| 0 <= j < |keys[1..]| && keys[1..][j] == x;
        assert keys[j + 1] == x;
        assert x in keys;
      }
    } else {
      assert forall x :: x in keys[1..] ==> x in keys;
      forall a, b | 0 <= a < b < |keys[1..]| ensures keys[1..][a] != keys[1..][b] {
        assert keys[1..][a] == keys[a + 1] && keys[1..][b] == keys[b + 1];
      }
      forall x | x in WithProps(keys[1..], table, v) ensures x == keys[1..][i - 1] {
        assert x in keys && table[x] == v;
        assert x in WithProps(keys, table, v);
      }
      WithPropsSingle(keys[1..], table, v, i - 1);
      assert keys[0] != keys[i];
    }
  }

  /**
   * The intended guess fails only on a TextGrid without interval tiers or
   * whose tiers all carry one name.
   */
  lemma GuessTiersIntendedFails(tiers: seq<IntervalTier>)
    ensures GuessTiersIntended(tiers) == Failure(NoIntervalTiers) <==> tiers == []
    ensures GuessTiersIntended(tiers) == Failure(NoSpellingCandidate) <==>
      tiers != [] && forall i :: 0 <= i < |tiers| ==> tiers[i].name == tiers[0].name
  {
    if tiers != [] {
      if forall i :: 0 <= i < |tiers| ==> tiers[i].name == tiers[0].name {
        OneNameNoCandidate(tiers);
      } else {
        var i :| 0 <= i < |tiers| && tiers[i].name != tiers[0].name;
        TwoNamesGuessed(tiers, i);
      }
    }
  }

  /** With a single tier name, that name is the segment tier and nothing is left for spelling. */
  lemma OneNameNoCandidate(tiers: seq<IntervalTier>)
    requires tiers != [] && forall i :: 0 <= i < |tiers| ==> tiers[i].name == tiers[0].name
    ensures GuessTiersIntended(tiers) == Failure(NoSpellingCandidate)
  {
    var keys := DistinctInOrder(Names(tiers));
    var table := TierTable(tiers);
    LikelySegmentUnique(tiers);
    var m := MaxMeanKey(keys, table);
    forall x | x in keys ensures x == m {
      var i :| 0 <= i < |Names(tiers)| && Names(tiers)[i] == x;
      var j :| 0 <= j < |Names(tiers)| && Names(tiers)[j] == m;
    }
    assert forall x :: x in keys ==> x in [m];
  }

  /** With two different tier names, a spelling candidate remains. */
  lemma TwoNamesGuessed(tiers: seq<IntervalTier>, i: nat)
    requires i < |tiers| && tiers[i].name != tiers[0].name
    ensures GuessTiersIntended(tiers).Success?
  {
    var keys := DistinctInOrder(Names(tiers));
    var table := TierTable(tiers);
    LikelySegmentUnique(tiers);
    var m := MaxMeanKey(keys, table);
    var candidates := Without(keys, [m]);
    assert Names(tiers)[i] in keys && Names(tiers)[0] in keys;
    assert tiers[i].name in candidates || tiers[0].name in candidates;
  }

  /**
   * A successful intended guess names one spelling tier and one segment tier,
   * and they differ; the segment tier has the largest mean label length, the
   * spelling tier comes first among the others, and every tier name has
   * exactly one role.
   */
  lemma GuessTiersIntendedRoles(tiers: seq<IntervalTier>)
    requires GuessTiersIntended(tiers).Success?
    ensures var g := GuessTiersIntended(tiers).value;
      var table := TierTable(tiers);
      && |g.spellings| == 1 && |g.segments| == 1
      && g.spellings[0] != g.segments[0]
      && g.spellings[0] in table && g.segments[0] in table
      && (forall t :: t in tiers ==> table[t.name].meanLabelLength <= table[g.segments[0]].meanLabelLength)
      && (forall t :: t in tiers && t.name != g.segments[0] ==> table[g.spellings[0]].position <= table[t.name].position)
      && (forall t :: t in tiers ==> ExactlyOne(t.name in g.spellings, t.name in g.segments, t.name in g.attributes))
  {
    var keys := DistinctInOrder(Names(tiers));
    var table := TierTable(tiers);
    forall t | t in tiers ensures t.name in keys {
      var i :| 0 <= i < |tiers| && tiers[i] == t;
      assert Names(tiers)[i] == t.name;
    }
    LikelySegmentUnique(tiers);
  }

  predicate ExactlyOne(a: bool, b: bool, c: bool)
  {
    (a && !b && !c) || (!a && b && !c) || (!a && !b && c)
  }

  /** The recorded keys and properties, tier by tier. */
  method TierProperties(tiers: seq<IntervalTier>) returns (keys: seq<string>, table: map<string, TierProps>)
    ensures keys == DistinctInOrder(Names(tiers))
    ensures table == TierTable(tiers)
  {
    keys := [];
    table := map[];
    var i := 0;
    while i < |tiers|
      invariant 0 <= i <= |tiers|
      invariant keys == DistinctInOrder(Names(tiers[..i]))
      invariant table == TierTable(tiers[..i])
    {
      var t := tiers[i];
      assert tiers[..i + 1][..i] == tiers[..i];
      assert Names(tiers[..i + 1])[..i] == Names(tiers[..i]);
      if t.name !in keys {
        keys := keys + [t.name];
      }
      table := table[t.name := PropsAt(tiers, i)];
      i := i + 1;
    }
    assert tiers[..|tiers|] == tiers;
  }

  /** The tier roles as intended, computed as the source does with the segment exclusion repaired. */
  method GuessTiers(tiers: seq<IntervalTier>) returns (r: Result<Guess, GuessError>)
    ensures r == GuessTiersIntended(tiers)
  {
    var keys, table := TierProperties(tiers);
    r := GuessFromKeys(keys, table);
  }

  method GuessFromKeys(keys: seq<string>, table: map<string, TierProps>) returns (r: Result<Guess, GuessError>)
    requires forall x :: x in keys ==> x in table
    ensures r == GuessFromTable(keys, table)
  {
    if keys == [] {
      return Failure(NoIntervalTiers);
    }
    var likely := LikelySegment(keys, table);
    var segments: seq<string> := [];
    if |likely| == 1 {
      segments := likely;
    }
    assert segments == if |likely| == 1 then likely else [];
    var candidates := Without(keys, segments);
    if candidates == [] {
      return Failure(NoSpellingCandidate);
    }
    var spellings := [MinPositionKey(candidates, table)];
    var attributes := AttributeNames(keys, segments, spellings);
    r := Success(Guess(spellings, segments, attributes));
  }

  /** The names that are neither segment nor spelling names, in key order. */
  method AttributeNames(keys: seq<string>, segments: seq<string>, spellings: seq<string>) returns (attributes: seq<string>)
    ensures attributes == Without(keys, segments + spellings)
  {
    attributes := [];
    var i := 0;
    while i < |keys|
      invariant 0 <= i <= |keys|
      invariant attributes == Without(keys[..i], segments + spellings)
    {
      assert keys[..i + 1][..i] == keys[..i];
      if keys[i] in segments {
      } else if keys[i] in spellings {
      } else {
        attributes := attributes + [keys[i]];
      }
      i := i + 1;
    }
    assert keys[..|keys|] == keys;
  }

  /**
   * As written, a TextGrid whose first tier has the longest labels gets that
   * tier both as segment tier and as spelling tier, and the real spelling
   * tier becomes an attribute.
   */
  lemma GuessTiersAsWrittenMisplacesSpelling()
    ensures var tiers := [IntervalTier("phones", [], 3.0, []), IntervalTier("words", [], 1.0, [])];
            && GuessTiersAsWritten(tiers) == Success(GuessAsWritten(["phones"], [["phones"]], ["words"]))
            && GuessTiersIntended(tiers) == Success(Guess(["words"], ["phones"], []))
  {
    var tiers := [IntervalTier("phones", [], 3.0, []), IntervalTier("words", [], 1.0, [])];
    var names: seq<string> := ["phones", "words"];
    var table := map["phones" := TierProps(0, 0, 3.0, 0), "words" := TierProps(1, 0, 1.0, 0)];
    ExampleKeys(tiers, names);
    ExampleTable(tiers, table);
    ExampleChoices(names, table);
    ExampleFilters(names);
  }

  lemma ExampleChoices(names: seq<string>, table: map<string, TierProps>)
    requires names == ["phones", "words"]
    requires table == map["phones" := TierProps(0, 0, 3.0, 0), "words" := TierProps(1, 0, 1.0, 0)]
    ensures MaxMeanKey(names, table) == "phones"
    ensures LikelySegment(names, table) == ["phones"]
    ensures MinPositionKey(names, table) == "phones"
    ensures MinPositionKey(["words"], table) == "words"
  {
    assert names[1..] == ["words"];
  }

  lemma ExampleFilters(names: seq<string>)
    requires names == ["phones", "words"]
    ensures Without(names, ["phones"]) == ["words"]
    ensures Without(names, ["phones"] + ["words"]) == []
  {
    assert names[..1] == ["phones"];
    assert forall x :: x in names ==> x in ["phones"] + ["words"];
  }

  lemma ExampleKeys(tiers: seq<IntervalTier>, names: seq<string>)
    requires tiers == [IntervalTier("phones", [], 3.0, []), IntervalTier("words", [], 1.0, [])]
    requires names == ["phones", "words"]
    ensures DistinctInOrder(Names(tiers)) == names
  {
    assert Names(tiers) == names;
    assert names[..1] == ["phones"] && names[..1][..0] == [];
    assert DistinctInOrder(names[..1]) == ["phones"];
  }

  lemma ExampleTable(tiers: seq<IntervalTier>, table: map<string, TierProps>)
    requires tiers == [IntervalTier("phones", [], 3.0, []), IntervalTier("words", [], 1.0, [])]
    requires table == map["phones" := TierProps(0, 0, 3.0, 0), "words" := TierProps(1, 0, 1.0, 0)]
    ensures TierTable(tiers) == table
  {
    assert tiers[..1][..0] == [];
    assert TierTable(tiers[..1]) == map["phones" := TierProps(0, 0, 3.0, 0)];
  }

  // ---------------------------------------------------------------------------
  // Building the schema from TextGrids
  // ---------------------------------------------------------------------------

  datatype InspectError = GuessFailed(file: nat, reason: GuessError) | TierCountMismatch(file: nat)

  /** The schema entry for one tier of the first TextGrid. */
  function TypeForTier(t: IntervalTier, g: Guess, guessType: seq<string> -> Category, sanitize: string -> string)
    : (a: AnnotationType)
    ensures a.name == t.name
    ensures a.anchor <==> t.name in g.spellings
    ensures a.base <==> t.name !in g.spellings && t.name in g.segments
    ensures a.attribute.Some? <==> !a.anchor && !a.base
    ensures a.Delimited() ==> a.attribute.Some? && a.attribute.value.category == Tier
    ensures a.attribute.Some? && a.attribute.value.category == Tier ==>
      a.delimiter == FirstDelimiter(t.uniqueLabels, TextGridDelimiters)
  {
    var base := if |g.segments| == 0 then None else Some(g.segments[0]);
    var anchor := if |g.spellings| == 0 then None else Some(g.spellings[0]);
    if t.name in g.spellings then NewType(t.name, base, None, true, false, false)
    else if t.name in g.segments then NewType(t.name, None, anchor, false, true, true)
    else
      var cat := guessType(t.uniqueLabels);
      var a := NewType(t.name, None, anchor, false, false, false).(attribute := Some(Attribute(sanitize(t.name), cat)));
      if cat == Tier then a.(delimiter := FirstDelimiter(t.uniqueLabels, TextGridDelimiters)) else a
  }

  function TypesFor(tiers: seq<IntervalTier>, g: Guess, guessType: seq<string> -> Category, sanitize: string -> string)
    : (r: seq<AnnotationType>)
    ensures |r| == |tiers| && forall i :: 0 <= i < |tiers| ==> r[i] == TypeForTier(tiers[i], g, guessType, sanitize)
  {
    seq(|tiers|, i requires 0 <= i < |tiers| => TypeForTier(tiers[i], g, guessType, sanitize))
  }

  /** The guess for each TextGrid. */
  function Guesses(files: seq<seq<IntervalTier>>): (r: seq<Result<Guess, GuessError>>)
    ensures |r| == |files| && forall i :: 0 <= i < |files| ==> r[i] == GuessTiersIntended(files[i])
  {
    seq(|files|, i requires 0 <= i < |files| => GuessTiersIntended(files[i]))
  }

  /** The schema from the TextGrids from index `start` on, given each one's guess and the schema built so far. */
  function InspectFrom(files: seq<seq<IntervalTier>>, guesses: seq<Result<Guess, GuessError>>, start: nat,
                       types: seq<AnnotationType>, guessType: seq<string> -> Category, sanitize: string -> string)
    : Result<seq<AnnotationType>, InspectError>
    requires start <= |files| == |guesses|
    decreases |files| - start
  {
    if start == |files| then Success(types)
    else match guesses[start]
      case Failure(e) => Failure(GuessFailed(start, e))
      case Success(g) =>
        if |types| == 0 then InspectFrom(files, guesses, start + 1, TypesFor(files[start], g, guessType, sanitize), guessType, sanitize)
        else if |types| != |files[start]| then Failure(TierCountMismatch(start))
        else InspectFrom(files, guesses, start + 1, types, guessType, sanitize)
  }

  /** Once a schema exists, the later TextGrids only have to be guessable and have as many tiers. */
  lemma {:induction false} InspectFromLater(files: seq<seq<IntervalTier>>, guesses: seq<Result<Guess, GuessError>>,
                                            start: nat, types: seq<AnnotationType>,
                                            guessType: seq<string> -> Category, sanitize: string -> string)
    requires start <= |files| == |guesses| && |types| > 0
    ensures InspectFrom(files, guesses, start, types, guessType, sanitize).Success? <==>
      forall j :: start <= j < |files| ==> guesses[j].Success? && |files[j]| == |types|
    ensures InspectFrom(files, guesses, start, types, guessType, sanitize).Success? ==>
      InspectFrom(files, guesses, start, types, guessType, sanitize).value == types
    decreases |files| - start
  {
    if start < |files| {
      InspectFromLater(files, guesses, start + 1, types, guessType, sanitize);
    }
  }

  /**
   * The schema is built from the first TextGrid, one entry per interval tier
   * in tier order, and succeeds exactly when every TextGrid's roles can be
   * guessed and every later TextGrid has as many interval tiers as the first.
   */
  lemma InspectOutcome(files: seq<seq<IntervalTier>>, guesses: seq<Result<Guess, GuessError>>,
                       guessType: seq<string> -> Category, sanitize: string -> string)
    requires 0 < |files| == |guesses|
    requires guesses[0].Success? ==> |files[0]| > 0
    ensures InspectFrom(files, guesses, 0, [], guessType, sanitize).Success? <==>
      forall j :: 0 <= j < |files| ==> guesses[j].Success? && |files[j]| == |files[0]|
    ensures InspectFrom(files, guesses, 0, [], guessType, sanitize).Success? ==>
      var types := InspectFrom(files, guesses, 0, [], guessType, sanitize).value;
      && |types| == |files[0]|
      && forall i :: 0 <= i < |types| ==> types[i] == TypeForTier(files[0][i], guesses[0].value, guessType, sanitize)
  {
    if guesses[0].Success? {
      var types := TypesFor(files[0], guesses[0].value, guessType, sanitize);
      InspectFromLater(files, guesses, 1, types, guessType, sanitize);
    }
  }

  /** A TextGrid whose roles can be guessed has at least one interval tier. */
  lemma GuessedHasTiers(files: seq<seq<IntervalTier>>)
    requires |files| > 0
    ensures Guesses(files)[0].Success? ==> |files[0]| > 0
  {
    GuessTiersIntendedFails(files[0]);
  }

  /** Reads the schema off a list of parsed TextGrids (the files of a directory, or one file). */
  method InspectDiscourseTextGrid(files: seq<seq<IntervalTier>>, guessType: seq<string> -> Category, sanitize: string -> string)
    returns (r: Result<seq<AnnotationType>, InspectError>)
    ensures r == InspectFrom(files, Guesses(files), 0, [], guessType, sanitize)
  {
    var types: seq<AnnotationType> := [];
    var f := 0;
    while f < |files|
      invariant 0 <= f <= |files|
      invariant InspectFrom(files, Guesses(files), 0, [], guessType, sanitize) ==
                InspectFrom(files, Guesses(files), f, types, guessType, sanitize)
    {
      var step := InspectStep(files, f, types, guessType, sanitize);
      if step.Failure? {
        return Failure(step.error);
      }
      types := step.value;
      f := f + 1;
    }
    r := Success(types);
  }

  /** One TextGrid: guess its roles, then build the schema from it or check its tier count. */
  method InspectStep(files: seq<seq<IntervalTier>>, f: nat, types: seq<AnnotationType>,
                     guessType: seq<string> -> Category, sanitize: string -> string)
    returns (r: Result<seq<AnnotationType>, InspectError>)
    requires f < |files|
    ensures r.Failure? ==> InspectFrom(files, Guesses(files), f, types, guessType, sanitize) == Failure(r.error)
    ensures r.Success? ==> InspectFrom(files, Guesses(files), f, types, guessType, sanitize) ==
                           InspectFrom(files, Guesses(files), f + 1, r.value, guessType, sanitize)
  {
    var tiers := files[f];
    var g := GuessTiers(tiers);
    assert g == Guesses(files)[f];
    if g.Failure? {
      return Failure(GuessFailed(f, g.error));
    }
    if |types| == 0 {
      var built := BuildTypes(tiers, g.value, guessType, sanitize);
      return Success(built);
    } else if |types| != |tiers| {
      return Failure(TierCountMismatch(f));
    }
    r := Success(types);
  }

  /** The schema entries for the tiers of the first TextGrid, in tier order. */
  method BuildTypes(tiers: seq<IntervalTier>, g: Guess, guessType: seq<string> -> Category, sanitize: string -> string)
    returns (types: seq<AnnotationType>)
    ensures types == TypesFor(tiers, g, guessType, sanitize)
  {
    types := [];
    var i := 0;
    while i < |tiers|
      invariant 0 <= i <= |tiers|
      invariant types == TypesFor(tiers[..i], g, guessType, sanitize)
    {
      var a := BuildTierType(tiers[i], g, guessType, sanitize);
      types := types + [a];
      i := i + 1;
    }
    assert tiers[..|tiers|] == tiers;
  }

  /** One tier's schema entry; the delimiter of a transcription tier is found by scanning its labels. */
  method BuildTierType(t: IntervalTier, g: Guess, guessType: seq<string> -> Category, sanitize: string -> string)
    returns (a: AnnotationType)
    ensures a == TypeForTier(t, g, guessType, sanitize)
  {
    var base := if |g.segments| == 0 then None else Some(g.segments[0]);
    var anchor := if |g.spellings| == 0 then None else Some(g.spellings[0]);
    if t.name in g.spellings {
      a := NewType(t.name, base, None, true, false, false);
    } else if t.name in g.segments {
      a := NewType(t.name, None, anchor, false, true, true);
    } else {
      var cat := guessType(t.uniqueLabels);
      a := NewType(t.name, None, anchor, false, false, false).(attribute := Some(Attribute(sanitize(t.name), cat)));
      if cat == Tier {
        var d := FindDelimiter(t.uniqueLabels, TextGridDelimiters);
        a := a.(delimiter := d);
      }
    }
  }

  // ---------------------------------------------------------------------------
  // From tiers to discourse data
  // ---------------------------------------------------------------------------

  /** The tier interval overlaps the word interval. */
  predicate Overlaps(ti: Interval, si: Interval)
  {
    ti.maxTime > si.minTime && ti.minTime < si.maxTime
  }

  /** A tier interval cut to the word interval. */
  function Clip(ti: Interval, si: Interval): (x: Interval)
    ensures x.mark == ti.mark
    ensures x.minTime == (if ti.minTime < si.minTime then si.minTime else ti.minTime)
    ensures x.maxTime == (if ti.maxTime > si.maxTime then si.maxTime else ti.maxTime)
  {
    Interval(if ti.minTime < si.minTime then si.minTime else ti.minTime,
             if ti.maxTime > si.maxTime then si.maxTime else ti.maxTime,
             ti.mark)
  }

  /**
   * The scan of a tier for one word: intervals ending at or before the word
   * start are skipped, the scan stops at the first interval starting at or
   * after the word end, and the others are cut to the word.
   */
  function Collected(intervals: seq<Interval>, si: Interval): seq<Interval>
    decreases |intervals|
  {
    if intervals == [] then []
    else if intervals[0].maxTime <= si.minTime then Collected(intervals[1..], si)
    else if intervals[0].minTime >= si.maxTime then []
    else [Clip(intervals[0], si)] + Collected(intervals[1..], si)
  }

  /** Units with a begin on the first and an end on the last; an empty parse gives none. */
  function Stamp(symbols: seq<string>, b: real, e: real): (r: seq<BaseAnnotation>)
    ensures |r| == |symbols|
  {
    seq(|symbols|, i requires 0 <= i < |symbols| =>
      BaseAnnotation(symbols[i], if i == 0 then Some(b) else None, if i == |symbols| - 1 then Some(e) else None))
  }

  /** The units one collected interval contributes to a base level. */
  function Expand(x: Interval, at: AnnotationType, parse: (string, AnnotationType) -> seq<string>)
    : seq<BaseAnnotation>
  {
    if at.Delimited() then Stamp(parse(x.mark, at), x.minTime, x.maxTime)
    else [BaseAnnotation(x.mark, Some(x.minTime), Some(x.maxTime))]
  }

  function ExpandAll(xs: seq<Interval>, at: AnnotationType, parse: (string, AnnotationType) -> seq<string>)
    : seq<BaseAnnotation>
    decreases |xs|
  {
    if xs == [] then [] else ExpandAll(xs[..|xs| - 1], at, parse) + Expand(xs[|xs| - 1], at, parse)
  }

  /** The units of base level `at` that fall within word interval `si`. */
  function TierElements(intervals: seq<Interval>, si: Interval, at: AnnotationType,
                        parse: (string, AnnotationType) -> seq<string>): seq<BaseAnnotation>
  {
    ExpandAll(Collected(intervals, si), at, parse)
  }

  predicate WellFormed(x: Interval)
  {
    x.minTime < x.maxTime
  }

  /**
   * Every collected interval lies within the word and is the cut of a tier
   * interval that overlaps the word; cuts of well-formed intervals are
   * well-formed.
   */
  lemma {:induction false} CollectedWithinWord(intervals: seq<Interval>, si: Interval)
    ensures forall x :: x in Collected(intervals, si) ==>
      && si.minTime <= x.minTime && x.maxTime <= si.maxTime
      && exists j :: 0 <= j < |intervals| && Overlaps(intervals[j], si) && x == Clip(intervals[j], si)
    ensures WellFormed(si) ==> forall x :: x in Collected(intervals, si) ==> InsideWord(x, si)
    ensures WellFormed(si) && (forall j :: 0 <= j < |intervals| ==> WellFormed(intervals[j])) ==>
      forall x :: x in Collected(intervals, si) ==> WellFormed(x)
    decreases |intervals|
  {
    if intervals != [] {
      CollectedWithinWord(intervals[1..], si);
      forall x | x in Collected(intervals[1..], si)
        ensures exists j :: 0 <= j < |intervals| && Overlaps(intervals[j], si) && x == Clip(intervals[j], si)
      {
        var j :| 0 <= j < |intervals[1..]| && Overlaps(intervals[1..][j], si) && x == Clip(intervals[1..][j], si);
        assert intervals[j + 1] == intervals[1..][j];
      }
    }
  }

  /** Both ends of `x` lie within the word interval. */
  predicate InsideWord(x: Interval, si: Interval)
  {
    si.minTime <= x.minTime <= si.maxTime && si.minTime <= x.maxTime <= si.maxTime
  }

  predicate SortedByStart(intervals: seq<Interval>)
  {
    forall i, j :: 0 <= i < j < |intervals| ==> intervals[i].minTime <= intervals[j].minTime
  }

  /** The cuts of the overlapping intervals, in tier order. */
  function ClipOverlapping(intervals: seq<Interval>, si: Interval): seq<Interval>
    decreases |intervals|
  {
    if intervals == [] then []
    else (if Overlaps(intervals[0], si) then [Clip(intervals[0], si)] else []) + ClipOverlapping(intervals[1..], si)
  }

  /** On a tier sorted by start time, stopping the scan early loses no overlapping interval. */
  lemma {:induction false} CollectedIsOverlapping(intervals: seq<Interval>, si: Interval)
    requires SortedByStart(intervals)
    ensures Collected(intervals, si) == ClipOverlapping(intervals, si)
    decreases |intervals|
  {
    if intervals != [] {
      CollectedIsOverlapping(intervals[1..], si);
      if intervals[0].maxTime > si.minTime && intervals[0].minTime >= si.maxTime {
        NoneOverlapAfter(intervals[1..], si, intervals[0].minTime);
      }
    }
  }

  lemma {:induction false} NoneOverlapAfter(intervals: seq<Interval>, si: Interval, start: real)
    requires forall j :: 0 <= j < |intervals| ==> start <= intervals[j].minTime
    requires start >= si.maxTime
    ensures ClipOverlapping(intervals, si) == []
    decreases |intervals|
  {
    if intervals != [] {
      NoneOverlapAfter(intervals[1..], si, start);
    }
  }

  lemma {:induction false} ExpandAllAppend(xs: seq<Interval>, ys: seq<Interval>, at: AnnotationType,
                                           parse: (string, AnnotationType) -> seq<string>)
    ensures ExpandAll(xs + ys, at, parse) == ExpandAll(xs, at, parse) + ExpandAll(ys, at, parse)
    decreases |ys|
  {
    if ys == [] {
      assert xs + ys == xs;
    } else {
      var init, last := ys[..|ys| - 1], ys[|ys| - 1];
      assert init + [last] == ys;
      assert (xs + init) + [last] == xs + ys;
      ExpandAllAppend(xs, init, at, parse);
      ExpandAllAppendStep(xs, init, last, at, parse);
    }
  }

  /** One more interval after a concatenation appends its units to both sides. */
  lemma ExpandAllAppendStep(xs: seq<Interval>, init: seq<Interval>, last: Interval, at: AnnotationType,
                            parse: (string, AnnotationType) -> seq<string>)
    requires ExpandAll(xs + init, at, parse) == ExpandAll(xs, at, parse) + ExpandAll(init, at, parse)
    ensures ExpandAll((xs + init) + [last], at, parse) == ExpandAll(xs, at, parse) + ExpandAll(init + [last], at, parse)
  {
    ExpandAllSnoc(xs + init, last, at, parse);
    ExpandAllSnoc(init, last, at, parse);
    AppendRegroup(ExpandAll(xs, at, parse), ExpandAll(init, at, parse), Expand(last, at, parse),
                  ExpandAll(xs + init, at, parse), ExpandAll(init + [last], at, parse));
  }

  lemma AppendRegroup<T>(a: seq<T>, b: seq<T>, e: seq<T>, ab: seq<T>, be: seq<T>)
    requires ab == a + b && be == b + e
    ensures ab + e == a + be
  {
  }

  /** A unit's times, where present, are those of the collected interval it came from. */
  predicate UnitWithin(u: BaseAnnotation, si: Interval)
  {
    && (u.begin.Some? ==> si.minTime <= u.begin.value <= si.maxTime)
    && (u.end.Some? ==> si.minTime <= u.end.value <= si.maxTime)
  }

  /** Every unit a tier contributes to a word carries times within the word. */
  lemma {:induction false} TierElementsWithinWord(intervals: seq<Interval>, si: Interval, at: AnnotationType,
                                                  parse: (string, AnnotationType) -> seq<string>)
    requires WellFormed(si)
    ensures forall u :: u in TierElements(intervals, si, at, parse) ==> UnitWithin(u, si)
  {
    CollectedWithinWord(intervals, si);
    ExpandAllWithin(Collected(intervals, si), si, at, parse);
  }

  lemma {:induction false} ExpandAllWithin(xs: seq<Interval>, si: Interval, at: AnnotationType,
                                           parse: (string, AnnotationType) -> seq<string>)
    requires forall x :: x in xs ==> InsideWord(x, si)
    ensures forall u :: u in ExpandAll(xs, at, parse) ==> UnitWithin(u, si)
    decreases |xs|
  {
    if xs != [] {
      var x := xs[|xs| - 1];
      assert x in xs;
      assert forall y :: y in xs[..|xs| - 1] ==> y in xs;
      ExpandAllWithin(xs[..|xs| - 1], si, at, parse);
    }
  }

  /** The units one tier interval gives a word it overlaps: the interval is cut to the word first. */
  method ClippedUnits(ti: Interval, si: Interval, at: AnnotationType,
                      parse: (string, AnnotationType) -> seq<string>)
    returns (units: seq<BaseAnnotation>)
    ensures units == Expand(Clip(ti, si), at, parse)
  {
    var phoneBegin := ti.minTime;
    var phoneEnd := ti.maxTime;
    if phoneBegin < si.minTime {
      phoneBegin := si.minTime;
    }
    if phoneEnd > si.maxTime {
      phoneEnd := si.maxTime;
    }
    if at.Delimited() {
      var symbols := parse(ti.mark, at);
      var parsed := seq(|symbols|, k requires 0 <= k < |symbols| => BaseAnnotation(symbols[k], None, None));
      units := [];
      if |parsed| > 0 {
        parsed := parsed[0 := parsed[0].(begin := Some(phoneBegin))];
        parsed := parsed[|parsed| - 1 := parsed[|parsed| - 1].(end := Some(phoneEnd))];
        assert parsed == Stamp(symbols, phoneBegin, phoneEnd);
        units := parsed;
      }
    } else {
      units := [BaseAnnotation(ti.mark, Some(phoneBegin), Some(phoneEnd))];
    }
  }

  /** One step of the scan, from the interval at position `i`, after `done` has been collected. */
  lemma CollectedStep(intervals: seq<Interval>, i: nat, si: Interval, done: seq<Interval>)
    requires i < |intervals| && Collected(intervals, si) == done + Collected(intervals[i..], si)
    ensures var ti := intervals[i];
      if ti.maxTime <= si.minTime then Collected(intervals, si) == done + Collected(intervals[i + 1..], si)
      else if ti.minTime >= si.maxTime then Collected(intervals, si) == done
      else Collected(intervals, si) == (done + [Clip(ti, si)]) + Collected(intervals[i + 1..], si)
  {
    assert intervals[i..][1..] == intervals[i + 1..];
    var ti := intervals[i];
    if ti.minTime >= si.maxTime {
      assert done + [] == done;
    }
  }

  lemma ExpandAllSnoc(xs: seq<Interval>, x: Interval, at: AnnotationType, parse: (string, AnnotationType) -> seq<string>)
    ensures ExpandAll(xs + [x], at, parse) == ExpandAll(xs, at, parse) + Expand(x, at, parse)
  {
    assert (xs + [x])[..|xs|] == xs;
  }

  /** Scans one tier for the units of one word. */
  method CollectTierElements(intervals: seq<Interval>, si: Interval, at: AnnotationType,
                             parse: (string, AnnotationType) -> seq<string>)
    returns (elems: seq<BaseAnnotation>)
    ensures elems == TierElements(intervals, si, at, parse)
  {
    elems := [];
    ghost var done: seq<Interval> := [];
    var i := 0;
    while i < |intervals|
      invariant 0 <= i <= |intervals|
      invariant Collected(intervals, si) == done + Collected(intervals[i..], si)
      invariant elems == ExpandAll(done, at, parse)
    {
      var ti := intervals[i];
      CollectedStep(intervals, i, si, done);
      if ti.maxTime <= si.minTime {
        i := i + 1;
        continue;
      }
      if ti.minTime >= si.maxTime {
        break;
      }
      var units := ClippedUnits(ti, si, at, parse);
      ExpandAllSnoc(done, Clip(ti, si), at, parse);
      elems := elems + units;
      done := done + [Clip(ti, si)];
      i := i + 1;
    }
    assert done == Collected(intervals, si);
  }

  /** The first tier with the given name. */
  function GetFirst(tiers: seq<IntervalTier>, name: string): (r: Option<IntervalTier>)
    ensures r.Some? ==> r.value in tiers && r.value.name == name
    ensures r.None? <==> forall t :: t in tiers ==> t.name != name
    decreases |tiers|
  {
    if tiers == [] then None
    else if tiers[0].name == name then Some(tiers[0])
    else GetFirst(tiers[1..], name)
  }

  /** The first interval whose closed time span holds `time`. */
  function IntervalContaining(intervals: seq<Interval>, time: real): (r: Option<Interval>)
    ensures r.Some? ==> r.value in intervals && r.value.minTime <= time <= r.value.maxTime
    ensures r.None? <==> forall x :: x in intervals ==> !(x.minTime <= time <= x.maxTime)
    decreases |intervals|
  {
    if intervals == [] then None
    else if intervals[0].minTime <= time <= intervals[0].maxTime then Some(intervals[0])
    else IntervalContaining(intervals[1..], time)
  }

  /** The point at which attribute tiers are read for a word, as the source computes it. */
  function LookupPointAsWritten(si: Interval): (t: real)
    ensures t == si.maxTime
  {
    si.minTime + (si.maxTime - si.minTime)
  }

  /** The midpoint of a word: as far from its start as from its end, and inside it. */
  function MidPoint(si: Interval): (t: real)
    ensures t - si.minTime == si.maxTime - t
    ensures WellFormed(si) ==> si.minTime < t < si.maxTime
  {
    si.minTime + (si.maxTime - si.minTime) / 2.0
  }

  /**
   * Reading attributes at the word's end rather than its midpoint picks the
   * attribute interval holding the word's end, not the one holding its midpoint.
   */
  lemma LookupPointPicksEndInterval()
    ensures var si := Interval(0.0, 3.0, "w");
            var attr := [Interval(0.0, 2.0, "x"), Interval(2.0, 3.0, "y")];
            && IntervalContaining(attr, LookupPointAsWritten(si)) == Some(attr[1])
            && IntervalContaining(attr, MidPoint(si)) == Some(attr[0])
  {
  }

  /** The characters of `s` that are not in the ignored set. */
  function WithoutIgnored(s: string, ignored: set<string>): (r: string)
    ensures forall i :: 0 <= i < |r| ==> [r[i]] !in ignored
    ensures forall i :: 0 <= i < |s| && [s[i]] !in ignored ==> s[i] in r
    ensures |r| <= |s|
    decreases |s|
  {
    if s == [] then []
    else (if [s[0]] in ignored then [] else [s[0]]) + WithoutIgnored(s[1..], ignored)
  }

  /** An attribute's value from the label of its interval. */
  function AttributeValue(at: AnnotationType, mark: string, parse: (string, AnnotationType) -> seq<string>): Value
  {
    if at.Delimited() then
      var symbols := parse(mark, at);
      Units(seq(|symbols|, i requires 0 <= i < |symbols| => BaseAnnotation(symbols[i], None, None)))
    else if at.ignored != {} then Text(WithoutIgnored(mark, at.ignored))
    else Text(mark)
  }

  datatype ReadError = MissingTier(name: string) | NoIntervalAt(name: string, time: real)

  /** A base level belonging to another speaker than the word level is left alone. */
  predicate SkipsLevel(wt: AnnotationType, bt: AnnotationType)
  {
    bt.speaker.Some? && bt.speaker != wt.speaker
  }

  /** The units of each base level for one word, base level by base level. */
  function BaseUnitsFrom(tiers: seq<IntervalTier>, wt: AnnotationType, si: Interval, bases: seq<AnnotationType>,
                         parse: (string, AnnotationType) -> seq<string>, acc: map<string, seq<BaseAnnotation>>)
    : Result<map<string, seq<BaseAnnotation>>, ReadError>
    decreases |bases|
  {
    if bases == [] then Success(acc)
    else if SkipsLevel(wt, bases[0]) then BaseUnitsFrom(tiers, wt, si, bases[1..], parse, acc)
    else match GetFirst(tiers, bases[0].name)
      case None => Failure(MissingTier(bases[0].name))
      case Some(t) =>
        BaseUnitsFrom(tiers, wt, si, bases[1..], parse, acc[bases[0].name := TierElements(t.intervals, si, bases[0], parse)])
  }

  /** The attribute values of one word, read at `point`, attribute type by attribute type. */
  function AttributesFrom(tiers: seq<IntervalTier>, point: real, types: seq<AnnotationType>,
                          parse: (string, AnnotationType) -> seq<string>,
                          token: map<string, Value>, additional: map<string, Value>)
    : Result<(map<string, Value>, map<string, Value>), ReadError>
    decreases |types|
  {
    if types == [] then Success((token, additional))
    else
      var at := types[0];
      if at.base || at.anchor then AttributesFrom(tiers, point, types[1..], parse, token, additional)
      else match GetFirst(tiers, at.name)
        case None => Failure(MissingTier(at.name))
        case Some(t) =>
          match IntervalContaining(t.intervals, point)
          case None => Failure(NoIntervalAt(at.name, point))
          case Some(ti) =>
            var v := AttributeValue(at, ti.mark, parse);
            if at.token then AttributesFrom(tiers, point, types[1..], parse, token[at.name := v], additional)
            else AttributesFrom(tiers, point, types[1..], parse, token, additional[at.name := v])
  }

  /** What is added for one interval `si` of the spelling tier of word level `wt`. */
  function PlanWord(tiers: seq<IntervalTier>, types: seq<AnnotationType>, wt: AnnotationType, si: Interval,
                    parse: (string, AnnotationType) -> seq<string>): Result<Planned, ReadError>
  {
    match BaseUnitsFrom(tiers, wt, si, BaseTypes(types), parse, map[])
    case Failure(e) => Failure(e)
    case Success(units) =>
      match AttributesFrom(tiers, MidPoint(si), types, parse, map[], map[])
      case Failure(e) => Failure(e)
      case Success(attrs) => Success(Planned(wt.name, si.mark, units, attrs.0, attrs.1))
  }

  function PlanWordsFrom(tiers: seq<IntervalTier>, types: seq<AnnotationType>, wt: AnnotationType, spelling: seq<Interval>,
                         parse: (string, AnnotationType) -> seq<string>, acc: seq<Planned>)
    : Result<seq<Planned>, ReadError>
    decreases |spelling|
  {
    if spelling == [] then Success(acc)
    else match PlanWord(tiers, types, wt, spelling[0], parse)
      case Failure(e) => Failure(e)
      case Success(p) => PlanWordsFrom(tiers, types, wt, spelling[1..], parse, acc + [p])
  }

  function PlanLevelsFrom(tiers: seq<IntervalTier>, types: seq<AnnotationType>, words: seq<AnnotationType>,
                          parse: (string, AnnotationType) -> seq<string>, acc: seq<Planned>)
    : Result<seq<Planned>, ReadError>
    decreases |words|, 0
  {
    if words == [] then Success(acc)
    else match GetFirst(tiers, words[0].name)
      case None => Failure(MissingTier(words[0].name))
      case Some(t) => ThenLevels(tiers, types, PlanWordsFrom(tiers, types, words[0], t.intervals, parse, acc), words[1..], parse)
  }

  function ThenLevels(tiers: seq<IntervalTier>, types: seq<AnnotationType>, sofar: Result<seq<Planned>, ReadError>,
                      words: seq<AnnotationType>, parse: (string, AnnotationType) -> seq<string>)
    : Result<seq<Planned>, ReadError>
    decreases |words|, 1
  {
    match sofar
    case Failure(e) => Failure(e)
    case Success(acc) => PlanLevelsFrom(tiers, types, words, parse, acc)
  }

  /** Every word of every word level, in schema order and then tier order. */
  function TextGridPlan(tiers: seq<IntervalTier>, types: seq<AnnotationType>, parse: (string, AnnotationType) -> seq<string>)
    : Result<seq<Planned>, ReadError>
  {
    PlanLevelsFrom(tiers, types, WordTypes(types), parse, [])
  }

  /** Every unit of every level lies within the word interval. */
  predicate AllWithin(units: map<string, seq<BaseAnnotation>>, si: Interval)
  {
    forall n :: n in units ==> forall u :: u in units[n] ==> UnitWithin(u, si)
  }

  /**
   * Every base unit planned for a word lies within the word's interval, and
   * only base levels of the schema get units.
   */
  lemma {:induction false} BaseUnitsWithinWord(tiers: seq<IntervalTier>, wt: AnnotationType, si: Interval,
                                               bases: seq<AnnotationType>, parse: (string, AnnotationType) -> seq<string>,
                                               acc: map<string, seq<BaseAnnotation>>)
    requires WellFormed(si)
    requires AllWithin(acc, si)
    ensures BaseUnitsFrom(tiers, wt, si, bases, parse, acc).Success? ==>
      var units := BaseUnitsFrom(tiers, wt, si, bases, parse, acc).value;
      && AllWithin(units, si)
      && (forall n :: n in units ==> n in acc || exists b :: b in bases && b.name == n)
    decreases |bases|
  {
    if bases != [] && !SkipsLevel(wt, bases[0]) && GetFirst(tiers, bases[0].name).Some? {
      var t := GetFirst(tiers, bases[0].name).value;
      TierElementsWithinWord(t.intervals, si, bases[0], parse);
      var acc' := acc[bases[0].name := TierElements(t.intervals, si, bases[0], parse)];
      BaseUnitsWithinWord(tiers, wt, si, bases[1..], parse, acc');
      assert forall b :: b in bases[1..] ==> b in bases;
      assert bases[0] in bases;
    } else if bases != [] && SkipsLevel(wt, bases[0]) {
      BaseUnitsWithinWord(tiers, wt, si, bases[1..], parse, acc);
      assert forall b :: b in bases[1..] ==> b in bases;
    }
  }

  /**
   * `v` is what attribute type `at` reads at `point`: the value of the label of
   * the first interval holding `point` in the first tier named after `at`.
   */
  predicate ReadAt(tiers: seq<IntervalTier>, point: real, at: AnnotationType,
                   parse: (string, AnnotationType) -> seq<string>, v: Value)
  {
    && GetFirst(tiers, at.name).Some?
    && IntervalContaining(GetFirst(tiers, at.name).value.intervals, point).Some?
    && v == AttributeValue(at, IntervalContaining(GetFirst(tiers, at.name).value.intervals, point).value.mark, parse)
  }

  /** Token attributes land among a word's token values and the others among its additional values. */
  lemma {:induction false} AttributesPlaced(tiers: seq<IntervalTier>, point: real, types: seq<AnnotationType>,
                                            parse: (string, AnnotationType) -> seq<string>,
                                            token: map<string, Value>, additional: map<string, Value>)
    ensures AttributesFrom(tiers, point, types, parse, token, additional).Success? ==>
      var (tok, add) := AttributesFrom(tiers, point, types, parse, token, additional).value;
      && token.Keys <= tok.Keys && additional.Keys <= add.Keys
      && (forall at :: at in types && !at.base && !at.anchor && at.token ==> at.name in tok)
      && (forall at :: at in types && !at.base && !at.anchor && !at.token ==> at.name in add)
      && (forall n :: n in tok ==> n in token || exists at :: at in types && !at.base && !at.anchor && at.token && at.name == n)
      && (forall n :: n in add ==> n in additional || exists at :: at in types && !at.base && !at.anchor && !at.token && at.name == n)
    decreases |types|
  {
    if types != [] {
      var at := types[0];
      assert forall x :: x in types ==> x == at || x in types[1..];
      assert forall x :: x in types[1..] ==> x in types;
      if at.base || at.anchor {
        AttributesPlaced(tiers, point, types[1..], parse, token, additional);
      } else if GetFirst(tiers, at.name).Some? {
        var t := GetFirst(tiers, at.name).value;
        if IntervalContaining(t.intervals, point).Some? {
          var v := AttributeValue(at, IntervalContaining(t.intervals, point).value.mark, parse);
          if at.token {
            AttributesPlaced(tiers, point, types[1..], parse, token[at.name := v], additional);
          } else {
            AttributesPlaced(tiers, point, types[1..], parse, token, additional[at.name := v]);
          }
        }
      }
    }
  }

  /**
   * Every value a word gets for an attribute is what an attribute type of that
   * name and kind reads at `point`; values already present stay unless read anew.
   */
  lemma {:induction false} AttributeValuesRead(tiers: seq<IntervalTier>, point: real, types: seq<AnnotationType>,
                                               parse: (string, AnnotationType) -> seq<string>,
                                               token: map<string, Value>, additional: map<string, Value>)
    ensures AttributesFrom(tiers, point, types, parse, token, additional).Success? ==>
      var (tok, add) := AttributesFrom(tiers, point, types, parse, token, additional).value;
      && (forall n :: n in tok ==>
            (n in token && tok[n] == token[n]) ||
            exists at :: at in types && !at.base && !at.anchor && at.token && at.name == n && ReadAt(tiers, point, at, parse, tok[n]))
      && (forall n :: n in add ==>
            (n in additional && add[n] == additional[n]) ||
            exists at :: at in types && !at.base && !at.anchor && !at.token && at.name == n && ReadAt(tiers, point, at, parse, add[n]))
    decreases |types|
  {
    if types != [] {
      var at := types[0];
      assert forall x :: x in types[1..] ==> x in types;
      if at.base || at.anchor {
        AttributeValuesRead(tiers, point, types[1..], parse, token, additional);
      } else if GetFirst(tiers, at.name).Some? {
        var t := GetFirst(tiers, at.name).value;
        if IntervalContaining(t.intervals, point).Some? {
          var v := AttributeValue(at, IntervalContaining(t.intervals, point).value.mark, parse);
          assert ReadAt(tiers, point, at, parse, v);
          if at.token {
            AttributeValuesRead(tiers, point, types[1..], parse, token[at.name := v], additional);
          } else {
            AttributeValuesRead(tiers, point, types[1..], parse, token, additional[at.name := v]);
          }
        }
      }
    }
  }

  /**
   * One word, planned from a spelling interval: it belongs to its word level,
   * keeps the interval's label, its base units lie within the interval, and
   * every attribute type of the schema gets a value in the right place.
   */
  lemma PlanWordShape(tiers: seq<IntervalTier>, types: seq<AnnotationType>, wt: AnnotationType, si: Interval,
                      parse: (string, AnnotationType) -> seq<string>)
    requires WellFormed(si)
    ensures PlanWord(tiers, types, wt, si, parse).Success? ==>
      var p := PlanWord(tiers, types, wt, si, parse).value;
      && p.level == wt.name && p.mark == si.mark
      && AllWithin(p.units, si)
      && (forall n :: n in p.units ==> exists b :: b in types && b.base && b.name == n)
      && (forall at :: at in types && !at.base && !at.anchor ==>
            if at.token then at.name in p.token else at.name in p.additional)
      && (forall n :: n in p.token ==>
            exists at :: at in types && at.token && at.name == n && ReadAt(tiers, MidPoint(si), at, parse, p.token[n]))
      && (forall n :: n in p.additional ==>
            exists at :: at in types && !at.token && at.name == n && ReadAt(tiers, MidPoint(si), at, parse, p.additional[n]))
  {
    BaseUnitsWithinWord(tiers, wt, si, BaseTypes(types), parse, map[]);
    AttributesPlaced(tiers, MidPoint(si), types, parse, map[], map[]);
    AttributeValuesRead(tiers, MidPoint(si), types, parse, map[], map[]);
  }

  /** Builds one word and its units against the current level lengths. */
  method BuildWord(d: DiscourseData, tiers: seq<IntervalTier>, types: seq<AnnotationType>, wt: AnnotationType, si: Interval,
                   parse: (string, AnnotationType) -> seq<string>)
    returns (r: Result<(Annotation, map<string, seq<BaseAnnotation>>), ReadError>)
    requires forall bt :: bt in types && bt.base ==> bt.name in d.baseLevels
    ensures r.Failure? <==> PlanWord(tiers, types, wt, si, parse).Failure?
    ensures r.Failure? ==> r.error == PlanWord(tiers, types, wt, si, parse).error
    ensures r.Success? ==>
      && Fits(r.value.0.refs, r.value.1, d.baseLevels)
      && Built(r.value.0, r.value.1, PlanWord(tiers, types, wt, si, parse).value)
      && PlanWord(tiers, types, wt, si, parse).value.level == wt.name
  {
    var bases := BaseTypes(types);
    var refs: map<string, Range> := map[];
    var batch: map<string, seq<BaseAnnotation>> := map[];
    var i := 0;
    while i < |bases|
      invariant 0 <= i <= |bases|
      invariant BaseUnitsFrom(tiers, wt, si, bases, parse, map[]) == BaseUnitsFrom(tiers, wt, si, bases[i..], parse, batch)
      invariant refs.Keys == batch.Keys
      invariant Fits(refs, batch, d.baseLevels)
    {
      var bt := bases[i];
      assert bases[i..][1..] == bases[i + 1..];
      if SkipsLevel(wt, bt) {
        i := i + 1;
        continue;
      }
      var t := GetFirst(tiers, bt.name);
      if t.None? {
        return Failure(MissingTier(bt.name));
      }
      var elems := CollectTierElements(t.value.intervals, si, bt, parse);
      var count := d.LevelLength(bt.name);
      refs := refs[bt.name := Range(count, count + |elems|)];
      batch := batch[bt.name := elems];
      i := i + 1;
    }
    var point := MidPoint(si);
    var token: map<string, Value> := map[];
    var additional: map<string, Value> := map[];
    var j := 0;
    while j < |types|
      invariant 0 <= j <= |types|
      invariant AttributesFrom(tiers, point, types, parse, map[], map[]) ==
                AttributesFrom(tiers, point, types[j..], parse, token, additional)
    {
      var at := types[j];
      assert types[j..][1..] == types[j + 1..];
      if at.base || at.anchor {
        j := j + 1;
        continue;
      }
      var t := GetFirst(tiers, at.name);
      if t.None? {
        return Failure(MissingTier(at.name));
      }
      var ti := IntervalContaining(t.value.intervals, point);
      if ti.None? {
        return Failure(NoIntervalAt(at.name, point));
      }
      var v := AttributeValue(at, ti.value.mark, parse);
      if at.token {
        token := token[at.name := v];
      } else {
        additional := additional[at.name := v];
      }
      j := j + 1;
    }
    r := Success((Annotation(si.mark, refs, token, additional), batch));
  }

  /** Adds one word per interval of a spelling tier, in tier order. */
  method AddTierWords(d: DiscourseData, tiers: seq<IntervalTier>, types: seq<AnnotationType>, wt: AnnotationType,
                      intervals: seq<Interval>, parse: (string, AnnotationType) -> seq<string>, ghost plans0: seq<Planned>)
    returns (r: Result<(), ReadError>, ghost plans: seq<Planned>)
    requires d.Valid() && wt.name in d.wordLevels
    requires forall bt :: bt in types && bt.base ==> bt.name in d.baseLevels
    requires forall t :: t in types && t.anchor ==> t.name in d.wordLevels
    requires Realizes(d.log, d.baseLevels, plans0)
    modifies d
    ensures d.Valid() && d.name == old(d.name)
    ensures forall bt :: bt in types && bt.base ==> bt.name in d.baseLevels
    ensures forall t :: t in types && t.anchor ==> t.name in d.wordLevels
    ensures r.Failure? <==> PlanWordsFrom(tiers, types, wt, intervals, parse, plans0).Failure?
    ensures r.Failure? ==> r.error == PlanWordsFrom(tiers, types, wt, intervals, parse, plans0).error
    ensures r.Success? ==>
      PlanWordsFrom(tiers, types, wt, intervals, parse, plans0) == Success(plans)
      && Realizes(d.log, d.baseLevels, plans)
  {
    plans := plans0;
    var j := 0;
    while j < |intervals|
      invariant 0 <= j <= |intervals|
      invariant d.Valid() && d.name == old(d.name) && wt.name in d.wordLevels
      invariant forall bt :: bt in types && bt.base ==> bt.name in d.baseLevels
      invariant forall t :: t in types && t.anchor ==> t.name in d.wordLevels
      invariant Realizes(d.log, d.baseLevels, plans)
      invariant PlanWordsFrom(tiers, types, wt, intervals, parse, plans0) ==
                PlanWordsFrom(tiers, types, wt, intervals[j..], parse, plans)
    {
      assert intervals[j..][1..] == intervals[j + 1..];
      var w := BuildWord(d, tiers, types, wt, intervals[j], parse);
      if w.Failure? {
        return Failure(w.error), plans;
      }
      ghost var p := PlanWord(tiers, types, wt, intervals[j], parse).value;
      AddKeepsRealizes(d.log, d.baseLevels, plans, wt.name, w.value.0, w.value.1, p);
      d.AddAnnotations(wt.name, w.value.0, w.value.1);
      plans := plans + [p];
      j := j + 1;
    }
    r := Success(());
  }

  /**
   * Reads one TextGrid into discourse data: for each word level, each interval
   * of its tier becomes a word whose ranges select the units of each base
   * level within the interval, with attributes read at the word's midpoint.
   * The result holds exactly the planned words, and each base level is the
   * concatenation of the units planned for it.
   */
  method TextGridToData(name: string, tiers: seq<IntervalTier>, types: seq<AnnotationType>,
                        parse: (string, AnnotationType) -> seq<string>)
    returns (r: Result<DiscourseData, ReadError>)
    ensures r.Failure? <==> TextGridPlan(tiers, types, parse).Failure?
    ensures r.Failure? ==> r.error == TextGridPlan(tiers, types, parse).error
    ensures r.Success? ==>
      && fresh(r.value) && r.value.Valid() && r.value.name == name
      && Realizes(r.value.log, r.value.baseLevels, TextGridPlan(tiers, types, parse).value)
      && forall n :: n in r.value.baseLevels ==>
           r.value.baseLevels[n] == Gather(TextGridPlan(tiers, types, parse).value, n)
  {
    var d := new DiscourseData(name, types);
    var words := WordTypes(types);
    ghost var plans: seq<Planned> := [];
    var i := 0;
    while i < |words|
      invariant 0 <= i <= |words|
      invariant fresh(d) && d.Valid() && d.name == name
      invariant forall bt :: bt in types && bt.base ==> bt.name in d.baseLevels
      invariant forall t :: t in types && t.anchor ==> t.name in d.wordLevels
      invariant Realizes(d.log, d.baseLevels, plans)
      invariant TextGridPlan(tiers, types, parse) == PlanLevelsFrom(tiers, types, words[i..], parse, plans)
    {
      var wt := words[i];
      assert words[i..][1..] == words[i + 1..];
      var spelling := GetFirst(tiers, wt.name);
      if spelling.None? {
        return Failure(MissingTier(wt.name));
      }
      var added;
      added, plans := AddTierWords(d, tiers, types, wt, spelling.value.intervals, parse, plans);
      if added.Failure? {
        return Failure(added.error);
      }
      i := i + 1;
    }
    forall n | n in d.baseLevels ensures d.baseLevels[n] == Gather(plans, n) {
      LevelIsGathered(d.log, d.baseLevels, d.wordLevels, plans, n);
    }
    r := Success(d);
  }
}
