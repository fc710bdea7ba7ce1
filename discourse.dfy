/**
 * The discourse accumulator shared by every reader: levels of leaf units
 * (phones, symbols) and levels of word-like composite units that refer to
 * half-open index ranges of the leaf levels.
 *
 * The accumulator itself lives in a helper module that is not part of this
 * model; what the readers rely on is modelled here: `LevelLength` and an
 * append-only `AddAnnotations`, together with the invariant the readers keep
 * (every word's range into a level starts where the previous word's range
 * into that level ended, and the ranges tile the whole level).
 */
module Discourse {

  import opened Options

  /** A leaf unit: a label and optional begin/end times in seconds. */
  datatype BaseAnnotation = BaseAnnotation(mark: string, begin: Option<real>, end: Option<real>)

  /** A half-open index range [begin, end) into one level. */
  datatype Range = Range(begin: nat, end: nat)

  /** An attribute value: a plain label, parsed units, parsed symbols, or no value at all. */
  datatype Value = Text(text: string) | Units(units: seq<BaseAnnotation>) | Symbols(symbols: seq<string>) | NoValue

  /** A word-like unit: its label, its ranges into base levels, and its attributes. */
  datatype Annotation = Annotation(
    mark: string,
    refs: map<string, Range>,
    token: map<string, Value>,
    additional: map<string, Value>)

  /** The kinds an attribute can be guessed to have. */
  datatype Category = Spelling | Tier | Numeric | Factor

  datatype Attribute = Attribute(name: string, category: Category)

  /** One entry of the annotation schema. */
  datatype AnnotationType = AnnotationType(
    name: string,
    subtype: Option<string>,
    supertype: Option<string>,
    anchor: bool,
    base: bool,
    token: bool,
    delimiter: Option<char>,
    ignored: set<string>,
    speaker: Option<string>,
    attribute: Option<Attribute>)
  {
    predicate Delimited() { delimiter.Some? }
  }

  /** A schema entry with the defaults of the schema constructor. */
  function NewType(name: string, subtype: Option<string>, supertype: Option<string>,
                   anchor: bool, base: bool, token: bool): (t: AnnotationType)
    ensures t.name == name && t.anchor == anchor && t.base == base && t.token == token
    ensures !t.Delimited() && t.attribute.None? && t.speaker.None?
  {
    AnnotationType(name, subtype, supertype, anchor, base, token, None, {}, None, None)
  }

  /** The names of the base (leaf) levels, in schema order. */
  function BaseLevelNames(types: seq<AnnotationType>): (r: seq<string>)
    ensures |r| <= |types|
    ensures forall n :: n in r <==> exists t :: t in types && t.base && t.name == n
  {
    if types == [] then []
    else (if types[0].base then [types[0].name] else []) + BaseLevelNames(types[1..])
  }

  /** The names of the word (anchor) levels, in schema order. */
  function WordLevelNames(types: seq<AnnotationType>): (r: seq<string>)
    ensures |r| <= |types|
    ensures forall n :: n in r <==> exists t :: t in types && t.anchor && t.name == n
  {
    if types == [] then []
    else (if types[0].anchor then [types[0].name] else []) + WordLevelNames(types[1..])
  }

  /** The base (leaf) level entries of a schema, in schema order. */
  function BaseTypes(types: seq<AnnotationType>): (r: seq<AnnotationType>)
    ensures forall t :: t in r <==> t in types && t.base
  {
    if types == [] then []
    else (if types[0].base then [types[0]] else []) + BaseTypes(types[1..])
  }

  /** The word (anchor) level entries of a schema, in schema order. */
  function WordTypes(types: seq<AnnotationType>): (r: seq<AnnotationType>)
    ensures forall t :: t in r <==> t in types && t.anchor
  {
    if types == [] then []
    else (if types[0].anchor then [types[0]] else []) + WordTypes(types[1..])
  }

  /** One word as it was added, with the word level it was added to. */
  datatype Entry = Entry(level: string, word: Annotation)

  /** Where the next range into level `n` has to begin after the words of `log`. */
  ghost function Frontier(log: seq<Entry>, n: string): nat
    decreases |log|
  {
    if log == [] then 0
    else if n in log[|log| - 1].word.refs then log[|log| - 1].word.refs[n].end
    else Frontier(log[..|log| - 1], n)
  }

  /** Every range starts exactly where the previous range into the same level ended. */
  ghost predicate Tiled(log: seq<Entry>)
  {
    forall k, n :: TileAt(log, k, n)
  }

  /** The range of word `k` into level `n`, if any, starts at the frontier left by the words before it. */
  ghost predicate TileAt(log: seq<Entry>, k: int, n: string)
  {
    0 <= k < |log| && n in log[k].word.refs ==>
      log[k].word.refs[n].begin == Frontier(log[..k], n) <= log[k].word.refs[n].end
  }

  /** The ranges refer to existing base levels and cover each of them completely. */
  ghost predicate Covers(log: seq<Entry>, levels: map<string, seq<BaseAnnotation>>)
  {
    && (forall k, n :: 0 <= k < |log| && n in log[k].word.refs ==> n in levels)
    && (forall n {:trigger Frontier(log, n)} :: n in levels ==> |levels[n]| == Frontier(log, n))
  }

  /** The words of `log` that went to word level `w`, in order. */
  ghost function Project(log: seq<Entry>, w: string): seq<Annotation>
    decreases |log|
  {
    if log == [] then []
    else Project(log[..|log| - 1], w)
         + (if log[|log| - 1].level == w then [log[|log| - 1].word] else [])
  }

  /** The hierarchy invariant of a discourse under construction. */
  ghost predicate Consistent(log: seq<Entry>, levels: map<string, seq<BaseAnnotation>>,
                             words: map<string, seq<Annotation>>)
  {
    && Tiled(log)
    && Covers(log, levels)
    && (forall k :: 0 <= k < |log| ==> log[k].level in words)
    && (forall w {:trigger Project(log, w)} :: w in words ==> words[w] == Project(log, w))
  }

  /** The batch of new units for level `n` (none when the batch has no entry). */
  function Batch(batch: map<string, seq<BaseAnnotation>>, n: string): seq<BaseAnnotation>
  {
    if n in batch then batch[n] else []
  }

  /** The base levels after appending a batch. */
  function Extend(levels: map<string, seq<BaseAnnotation>>, batch: map<string, seq<BaseAnnotation>>)
    : (r: map<string, seq<BaseAnnotation>>)
    ensures r.Keys == levels.Keys
  {
    map n | n in levels :: levels[n] + Batch(batch, n)
  }

  /**
   * The caller's obligation for one add: each range of the new word starts at
   * the level's current length and spans exactly the units added to it, and
   * units are only added to levels the word refers to.
   */
  ghost predicate Fits(refs: map<string, Range>, batch: map<string, seq<BaseAnnotation>>,
                       levels: map<string, seq<BaseAnnotation>>)
  {
    && batch.Keys <= refs.Keys
    && refs.Keys <= levels.Keys
    && forall n :: n in refs ==> refs[n] == Range(|levels[n]|, |levels[n]| + |Batch(batch, n)|)
  }

  lemma FrontierAppend(log: seq<Entry>, e: Entry, n: string)
    ensures Frontier(log + [e], n) == if n in e.word.refs then e.word.refs[n].end else Frontier(log, n)
  {
    assert (log + [e])[..|log|] == log;
  }

  lemma ProjectAppend(log: seq<Entry>, e: Entry, w: string)
    ensures Project(log + [e], w) == Project(log, w) + (if e.level == w then [e.word] else [])
  {
    assert (log + [e])[..|log|] == log;
  }

  /** Appending a word whose ranges fit keeps the hierarchy invariant. */
  lemma {:induction false} AddKeepsConsistent(
    log: seq<Entry>, levels: map<string, seq<BaseAnnotation>>, words: map<string, seq<Annotation>>,
    level: string, word: Annotation, batch: map<string, seq<BaseAnnotation>>)
    requires Consistent(log, levels, words)
    requires level in words
    requires Fits(word.refs, batch, levels)
    ensures Consistent(log + [Entry(level, word)], Extend(levels, batch),
                       words[level := words[level] + [word]])
  {
    var e := Entry(level, word);
    var log' := log + [e];
    var levels' := Extend(levels, batch);
    var words' := words[level := words[level] + [word]];
    forall k, n ensures TileAt(log', k, n) {
      if 0 <= k < |log| {
        assert TileAt(log, k, n);
        assert log'[..k] == log[..k];
      } else if k == |log| && n in word.refs {
        assert log'[..k] == log;
        assert n in levels;
      }
    }
    forall n | n in levels' ensures |levels'[n]| == Frontier(log', n) {
      FrontierAppend(log, e, n);
      if n !in word.refs {
        assert n !in batch;
      }
    }
    forall k | 0 <= k < |log'| ensures log'[k].level in words' {
      if k < |log| { assert log'[k] == log[k]; }
    }
    forall w | w in words' ensures words'[w] == Project(log', w) {
      ProjectAppend(log, e, w);
    }
    forall k, n | 0 <= k < |log'| && n in log'[k].word.refs ensures n in levels' {
      if k < |log| { assert log'[k] == log[k]; }
    }
  }

  /** Frontiers only move forward along the log. */
  lemma {:induction false} FrontierMonotone(log: seq<Entry>, j: nat, k: nat, n: string)
    requires Tiled(log)
    requires j <= k <= |log|
    ensures Frontier(log[..j], n) <= Frontier(log[..k], n)
    decreases k - j
  {
    if j < k {
      FrontierMonotone(log, j, k - 1, n);
      assert log[..k][..k - 1] == log[..k - 1];
      assert TileAt(log, k - 1, n);
    }
  }

  /** The frontier just after word `k` is the end of its range. */
  lemma FrontierAfter(log: seq<Entry>, k: nat, n: string)
    requires k < |log| && n in log[k].word.refs
    ensures Frontier(log[..k + 1], n) == log[k].word.refs[n].end
  {
    assert log[..k + 1][..k] == log[..k];
  }

  /** Every range of a consistent discourse lies inside its level. */
  lemma RangesInBounds(log: seq<Entry>, levels: map<string, seq<BaseAnnotation>>,
                       words: map<string, seq<Annotation>>, k: nat, n: string)
    requires Consistent(log, levels, words)
    requires k < |log| && n in log[k].word.refs
    ensures n in levels
    ensures log[k].word.refs[n].begin <= log[k].word.refs[n].end <= |levels[n]|
  {
    assert TileAt(log, k, n);
    FrontierAfter(log, k, n);
    FrontierMonotone(log, k + 1, |log|, n);
    assert log[..|log|] == log;
  }

  /** Ranges of two words into the same level do not overlap, and come in log order. */
  lemma RangesOrdered(log: seq<Entry>, j: nat, k: nat, n: string)
    requires Tiled(log)
    requires j < k < |log|
    requires n in log[j].word.refs && n in log[k].word.refs
    ensures log[j].word.refs[n].end <= log[k].word.refs[n].begin
  {
    assert TileAt(log, k, n);
    FrontierAfter(log, j, n);
    FrontierMonotone(log, j + 1, k, n);
  }

  /** Two consecutive words that both refer to level `n` have adjacent ranges. */
  lemma RangesContiguous(log: seq<Entry>, k: nat, n: string)
    requires Tiled(log)
    requires k + 1 < |log|
    requires n in log[k].word.refs && n in log[k + 1].word.refs
    ensures log[k].word.refs[n].end == log[k + 1].word.refs[n].begin
  {
    assert TileAt(log, k + 1, n);
    FrontierAfter(log, k, n);
  }

  /** What a reader intends to add for one word: its label, units per level and attributes. */
  datatype Planned = Planned(
    level: string,
    mark: string,
    units: map<string, seq<BaseAnnotation>>,
    token: map<string, Value>,
    additional: map<string, Value>)

  /** The added word `e` is the planned word `p`: its ranges select exactly the planned units. */
  ghost predicate RealizesOne(e: Entry, levels: map<string, seq<BaseAnnotation>>, p: Planned)
  {
    && e.level == p.level
    && e.word.mark == p.mark
    && e.word.token == p.token
    && e.word.additional == p.additional
    && e.word.refs.Keys == p.units.Keys
    && forall n :: n in e.word.refs ==>
         && n in levels
         && e.word.refs[n].begin <= e.word.refs[n].end <= |levels[n]|
         && levels[n][e.word.refs[n].begin..e.word.refs[n].end] == p.units[n]
  }

  ghost predicate Realizes(log: seq<Entry>, levels: map<string, seq<BaseAnnotation>>, plans: seq<Planned>)
  {
    |log| == |plans| && forall k {:trigger RealizesOne(log[k], levels, plans[k])} ::
      0 <= k < |log| ==> RealizesOne(log[k], levels, plans[k])
  }

  /** A word built from a plan and the current level lengths. */
  ghost predicate Built(word: Annotation, batch: map<string, seq<BaseAnnotation>>, p: Planned)
  {
    && word.mark == p.mark
    && word.token == p.token
    && word.additional == p.additional
    && word.refs.Keys == p.units.Keys
    && forall n :: n in p.units ==> Batch(batch, n) == p.units[n]
  }

  /** Appending units to levels leaves every earlier word's slices as they were. */
  lemma ExtendKeepsRealized(e: Entry, levels: map<string, seq<BaseAnnotation>>,
                            batch: map<string, seq<BaseAnnotation>>, p: Planned)
    requires RealizesOne(e, levels, p)
    ensures RealizesOne(e, Extend(levels, batch), p)
  {
    var levels' := Extend(levels, batch);
    forall n | n in e.word.refs
      ensures n in levels'
      ensures e.word.refs[n].end <= |levels'[n]|
      ensures levels'[n][e.word.refs[n].begin..e.word.refs[n].end] == p.units[n]
    {
      var r := e.word.refs[n];
      assert levels'[n] == levels[n] + Batch(batch, n);
      assert levels'[n][r.begin..r.end] == levels[n][r.begin..r.end];
    }
  }

  /** A word whose ranges fit, built from its plan, selects exactly the planned units. */
  lemma BuiltIsRealized(level: string, word: Annotation, levels: map<string, seq<BaseAnnotation>>,
                        batch: map<string, seq<BaseAnnotation>>, p: Planned)
    requires Fits(word.refs, batch, levels)
    requires Built(word, batch, p) && p.level == level
    ensures RealizesOne(Entry(level, word), Extend(levels, batch), p)
  {
    var levels' := Extend(levels, batch);
    forall n | n in word.refs
      ensures n in levels'
      ensures word.refs[n].begin <= word.refs[n].end <= |levels'[n]|
      ensures levels'[n][word.refs[n].begin..word.refs[n].end] == p.units[n]
    {
      var r := word.refs[n];
      assert levels'[n] == levels[n] + Batch(batch, n);
      assert levels'[n][r.begin..r.end] == Batch(batch, n);
    }
  }

  /** Adding a word built from its plan extends what the discourse realizes. */
  lemma {:induction false} AddKeepsRealizes(
    log: seq<Entry>, levels: map<string, seq<BaseAnnotation>>, plans: seq<Planned>,
    level: string, word: Annotation, batch: map<string, seq<BaseAnnotation>>, p: Planned)
    requires Realizes(log, levels, plans)
    requires Fits(word.refs, batch, levels)
    requires Built(word, batch, p) && p.level == level
    ensures Realizes(log + [Entry(level, word)], Extend(levels, batch), plans + [p])
  {
    var log' := log + [Entry(level, word)];
    var plans' := plans + [p];
    forall k | 0 <= k < |log'| ensures RealizesOne(log'[k], Extend(levels, batch), plans'[k]) {
      if k < |log| {
        assert log'[k] == log[k] && plans'[k] == plans[k];
        ExtendKeepsRealized(log[k], levels, batch, plans[k]);
      } else {
        assert log'[k] == Entry(level, word) && plans'[k] == p;
        BuiltIsRealized(level, word, levels, batch, p);
      }
    }
  }

  /** The units that a sequence of plans puts into level `n`, in order. */
  function Gather(plans: seq<Planned>, n: string): seq<BaseAnnotation>
    decreases |plans|
  {
    if plans == [] then []
    else Gather(plans[..|plans| - 1], n)
         + (if n in plans[|plans| - 1].units then plans[|plans| - 1].units[n] else [])
  }

  lemma {:induction false} PrefixGathered(
    log: seq<Entry>, levels: map<string, seq<BaseAnnotation>>, words: map<string, seq<Annotation>>,
    plans: seq<Planned>, m: nat, n: string)
    requires Consistent(log, levels, words)
    requires Realizes(log, levels, plans)
    requires m <= |log| && n in levels
    ensures Frontier(log[..m], n) <= |levels[n]|
    ensures levels[n][..Frontier(log[..m], n)] == Gather(plans[..m], n)
  {
    FrontierMonotone(log, m, |log|, n);
    assert log[..|log|] == log;
    if m > 0 {
      PrefixGathered(log, levels, words, plans, m - 1, n);
      FrontierMonotone(log, m - 1, m, n);
      GatherStep(log, levels, plans, m, n);
    }
  }

  /** One more word extends the gathered prefix of level `n` by the units planned for it. */
  lemma GatherStep(log: seq<Entry>, levels: map<string, seq<BaseAnnotation>>, plans: seq<Planned>, m: nat, n: string)
    requires Tiled(log) && 0 < m <= |log| && |log| == |plans| && n in levels
    requires RealizesOne(log[m - 1], levels, plans[m - 1])
    requires Frontier(log[..m - 1], n) <= Frontier(log[..m], n) <= |levels[n]|
    requires levels[n][..Frontier(log[..m - 1], n)] == Gather(plans[..m - 1], n)
    ensures levels[n][..Frontier(log[..m], n)] == Gather(plans[..m], n)
  {
    assert log[..m][..m - 1] == log[..m - 1];
    assert plans[..m][..m - 1] == plans[..m - 1];
    var g := Gather(plans[..m - 1], n);
    var p := plans[m - 1];
    assert Gather(plans[..m], n) == g + (if n in p.units then p.units[n] else []);
    if n in log[m - 1].word.refs {
      var r := log[m - 1].word.refs[n];
      assert TileAt(log, m - 1, n);
      FrontierAfter(log, m - 1, n);
      assert r.begin == Frontier(log[..m - 1], n);
      assert levels[n][r.begin..r.end] == p.units[n];
      assert levels[n][..r.end] == levels[n][..r.begin] + levels[n][r.begin..r.end];
    } else {
      assert log[..m][m - 1] == log[m - 1];
      assert Frontier(log[..m], n) == Frontier(log[..m - 1], n);
      assert n !in p.units;
    }
  }

  /** Every base level is exactly the concatenation, in order, of the units planned for it. */
  lemma LevelIsGathered(
    log: seq<Entry>, levels: map<string, seq<BaseAnnotation>>, words: map<string, seq<Annotation>>,
    plans: seq<Planned>, n: string)
    requires Consistent(log, levels, words)
    requires Realizes(log, levels, plans)
    requires n in levels
    ensures levels[n] == Gather(plans, n)
  {
    PrefixGathered(log, levels, words, plans, |log|, n);
    assert log[..|log|] == log;
    assert plans[..|plans|] == plans;
  }

  /** The discourse under construction: leaf levels, word levels and the schema. */
  class DiscourseData {
    var name: string
    const types: seq<AnnotationType>
    var baseLevels: map<string, seq<BaseAnnotation>>
    var wordLevels: map<string, seq<Annotation>>
    /** Every word added so far, in order of addition. */
    ghost var log: seq<Entry>

    ghost predicate Valid()
      reads this
    {
      Consistent(log, baseLevels, wordLevels)
    }

    constructor (name: string, types: seq<AnnotationType>)
      ensures Valid()
      ensures this.name == name && this.types == types && log == []
      ensures baseLevels == map n | n in BaseLevelNames(types) :: []
      ensures wordLevels == map n | n in WordLevelNames(types) :: []
      ensures forall t :: t in types && t.base ==> t.name in baseLevels
      ensures forall t :: t in types && t.anchor ==> t.name in wordLevels
    {
      this.name := name;
      this.types := types;
      baseLevels := map n | n in BaseLevelNames(types) :: [];
      wordLevels := map n | n in WordLevelNames(types) :: [];
      log := [];
    }

    /** The current number of units of base level `n`. */
    method LevelLength(n: string) returns (len: nat)
      requires n in baseLevels
      ensures len == |baseLevels[n]|
    {
      len := |baseLevels[n]|;
    }

    /**
     * Adds one word to word level `level` and appends each batch of new units
     * to its base level. The ranges of the word are the caller's to compute.
     */
    method AddAnnotations(level: string, word: Annotation, batch: map<string, seq<BaseAnnotation>>)
      requires Valid()
      requires level in wordLevels
      requires Fits(word.refs, batch, baseLevels)
      modifies this
      ensures Valid()
      ensures name == old(name)
      ensures baseLevels == Extend(old(baseLevels), batch)
      ensures wordLevels == old(wordLevels)[level := old(wordLevels)[level] + [word]]
      ensures log == old(log) + [Entry(level, word)]
    {
      AddKeepsConsistent(log, baseLevels, wordLevels, level, word, batch);
      baseLevels := Extend(baseLevels, batch);
      wordLevels := wordLevels[level := wordLevels[level] + [word]];
      log := log + [Entry(level, word)];
    }
  }
}
