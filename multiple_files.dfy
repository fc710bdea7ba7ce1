/**
 * Paired word/phone files (the Buckeye and TIMIT dialects): the fixed
 * schema of each dialect, reading the Buckeye word and phone records, and
 * merging the word stream with the phone stream into a discourse.
 *
 * Both merges consume one shared phone queue from its front; the queue is
 * a `seq<Phone>` that the merge loops pop, and each merge is proved against
 * a plan function that takes the queue word by word.
 */
module MultipleFiles {

  import opened Options
  import opened Text
  import opened Discourse

  /** Words that Buckeye tags with the category "UH". */
  const Fillers: set<string> := {"uh", "um", "okay", "yes", "yeah", "oh", "heh", "yknow", "um-huh",
                                 "uh-uh", "uh-huh", "uh-hum", "mm-hmm"}

  // ---------------------------------------------------------------------------
  // Records
  // ---------------------------------------------------------------------------

  /** A timed phone from a phone file. */
  datatype Phone = Phone(mark: string, begin: real, end: real)

  /** The citation and phonetic forms of a Buckeye speech word. */
  datatype Forms = Forms(citation: seq<string>, phonetic: seq<string>)

  /**
   * A word from a word file. TIMIT words have no forms and no category;
   * Buckeye non-speech words (`<...>`, `{...}`) have no forms.
   */
  datatype WordRecord = WordRecord(spelling: string, begin: real, end: real, forms: Option<Forms>, category: Option<string>)

  /** A phone as a unit of a base level. */
  function Unit(p: Phone): BaseAnnotation
  {
    BaseAnnotation(p.mark, Some(p.begin), Some(p.end))
  }

  function UnitsOf(ps: seq<Phone>): (r: seq<BaseAnnotation>)
    ensures |r| == |ps| && forall k :: 0 <= k < |ps| ==> r[k] == Unit(ps[k])
  {
    seq(|ps|, k requires 0 <= k < |ps| => Unit(ps[k]))
  }

  /** Untimed units, one per symbol. */
  function SymbolUnits(xs: seq<string>): (r: seq<BaseAnnotation>)
    ensures |r| == |xs| && forall k :: 0 <= k < |xs| ==> r[k] == BaseAnnotation(xs[k], None, None)
  {
    seq(|xs|, k requires 0 <= k < |xs| => BaseAnnotation(xs[k], None, None))
  }

  // ---------------------------------------------------------------------------
  // Schema
  // ---------------------------------------------------------------------------

  /** The dialect names the readers accept. */
  datatype UnsupportedDialect = UnsupportedDialect(dialect: string)

  function BuckeyeTypes(): seq<AnnotationType>
  {
    [ NewType("spelling", Some("surface_transcription"), None, true, false, false),
      NewType("transcription", None, Some("spelling"), false, true, false),
      NewType("surface_transcription", None, Some("spelling"), false, true, true),
      NewType("category", None, Some("spelling"), false, false, true) ]
  }

  function TimitTypes(): seq<AnnotationType>
  {
    [ NewType("spelling", Some("transcription"), None, true, false, false),
      NewType("transcription", None, Some("spelling"), false, true, true) ]
  }

  /**
   * The schema of a dialect: one anchor level "spelling" heading the list,
   * the base levels in order, and for Buckeye a per-token "category" attribute.
   */
  function InspectDiscourseMultipleFiles(dialect: string): (r: Result<seq<AnnotationType>, UnsupportedDialect>)
    ensures r.Failure? <==> dialect != "buckeye" && dialect != "timit"
    ensures r.Failure? ==> r.error == UnsupportedDialect(dialect)
    ensures r.Success? ==> |r.value| > 0 && WordTypes(r.value) == [r.value[0]] && r.value[0].name == "spelling"
    ensures dialect == "buckeye" ==>
      && r.Success? && |r.value| == 4
      && BaseLevelNames(r.value) == ["transcription", "surface_transcription"]
      && r.value[1].name == "transcription" && !r.value[1].token
      && r.value[2].name == "surface_transcription" && r.value[2].token
      && r.value[3].name == "category" && r.value[3].token && !r.value[3].base && !r.value[3].anchor
    ensures dialect == "timit" ==>
      && r.Success? && |r.value| == 2
      && BaseLevelNames(r.value) == ["transcription"] && r.value[1].name == "transcription" && r.value[1].token
  {
    if dialect == "buckeye" then Success(BuckeyeTypes())
    else if dialect == "timit" then Success(TimitTypes())
    else Failure(UnsupportedDialect(dialect))
  }

  // ---------------------------------------------------------------------------
  // Phone matching
  // ---------------------------------------------------------------------------

  /** A found phone label matches an expected one when it equals it or occurs inside it. */
  function PhoneMatch(one: string, two: string): (r: bool)
    ensures r <==> one == two || exists i :: OccursAt(two, one, i)
  {
    ContainsIff(two, one);
    !(one != two && !Contains(two, one))
  }

  /** The empty label matches every expected label. */
  lemma EmptyMatchesAll(two: string)
    ensures PhoneMatch("", two)
  {
    assert OccursAt(two, "", 0);
  }

  /** Matching is not symmetric: "a" matches "ab" but "ab" does not match "a". */
  lemma PhoneMatchAsymmetric()
    ensures PhoneMatch("a", "ab") && !PhoneMatch("ab", "a")
  {
    assert OccursAt("ab", "a", 0);
  }

  // ---------------------------------------------------------------------------
  // Reading Buckeye records
  // ---------------------------------------------------------------------------

  /** One line of a Buckeye phone file, already split: its end time and its label field. */
  datatype PhoneLine = PhoneLine(end: real, field: string)

  predicate LabelSeparator(c: char)
  {
    c == ';' || c == '+'
  }

  /** A separator match (an optional space, then ';' or '+') starts at position `j`. */
  predicate SeparatorAt(s: string, j: nat)
    requires j < |s|
  {
    LabelSeparator(s[j]) || (s[j] == ' ' && j + 1 < |s| && LabelSeparator(s[j + 1]))
  }

  /** The position of the leftmost separator match at or after `j`, or the length. */
  function LabelEnd(s: string, j: nat): (r: nat)
    requires j <= |s|
    ensures j <= r <= |s|
    ensures forall k :: j <= k < r ==> !SeparatorAt(s, k)
    ensures r < |s| ==> SeparatorAt(s, r)
    decreases |s| - j
  {
    if j == |s| || SeparatorAt(s, j) then j else LabelEnd(s, j + 1)
  }

  /** The phone label: the field up to its first separator match. */
  function PhoneLabel(field: string): string
  {
    field[..LabelEnd(field, 0)]
  }

  /** Reads phones: each begins where the previous one ended, the first at 0. */
  method ReadBuckeyePhones(lines: seq<PhoneLine>) returns (phones: seq<Phone>)
    ensures |phones| == |lines|
    ensures forall k :: 0 <= k < |lines| ==> phones[k].mark == PhoneLabel(lines[k].field) && phones[k].end == lines[k].end
    ensures |lines| > 0 ==> phones[0].begin == 0.0
    ensures forall k :: 0 < k < |lines| ==> phones[k].begin == phones[k - 1].end
  {
    phones := [];
    var begin := 0.0;
    var i := 0;
    while i < |lines|
      invariant 0 <= i <= |lines| && |phones| == i
      invariant forall k :: 0 <= k < i ==> phones[k].mark == PhoneLabel(lines[k].field) && phones[k].end == lines[k].end
      invariant i > 0 ==> phones[0].begin == 0.0 && begin == lines[i - 1].end
      invariant i == 0 ==> begin == 0.0
      invariant forall k :: 0 < k < i ==> phones[k].begin == phones[k - 1].end
    {
      var mark := PhoneLabel(lines[i].field);
      phones := phones + [Phone(mark, begin, lines[i].end)];
      begin := lines[i].end;
      i := i + 1;
    }
  }

  /** One line of a Buckeye word file, already split: end time, word, and the remaining fields. */
  datatype WordLine = WordLine(end: real, word: string, fields: seq<string>)

  datatype RecordError = EmptyWord(line: nat) | MissingFields(line: nat)

  /** Words written `<...>` or `{...}` are not speech and carry no forms. */
  predicate NonSpeech(word: string)
    requires word != []
  {
    word[0] == '<' || word[0] == '{'
  }

  /** The forms and category of the word on line `k`. */
  function ParseWordLine(l: WordLine, k: nat): (r: Result<(Option<Forms>, Option<string>), RecordError>)
    ensures r.Failure? <==> l.word == [] || (!NonSpeech(l.word) && |l.fields| < 3)
    ensures r.Failure? ==> r.error == if l.word == [] then EmptyWord(k) else MissingFields(k)
    ensures r.Success? ==> (r.value.0.None? <==> NonSpeech(l.word))
    ensures r.Success? && l.word in Fillers ==> r.value.1 == Some("UH")
    ensures r.Success? && l.word !in Fillers ==>
      r.value.1 == if NonSpeech(l.word) then None else Some(l.fields[2])
    ensures r.Success? && r.value.0.Some? ==>
      && Join(r.value.0.value.citation, " ") == l.fields[0]
      && Join(r.value.0.value.phonetic, " ") == l.fields[1]
      && (forall x :: x in r.value.0.value.citation ==> ' ' !in x)
      && (forall x :: x in r.value.0.value.phonetic ==> ' ' !in x)
  {
    if l.word == [] then Failure(EmptyWord(k))
    else if !NonSpeech(l.word) then
      if |l.fields| < 3 then Failure(MissingFields(k))
      else
        SplitOnJoin(l.fields[0], ' ');
        SplitOnJoin(l.fields[1], ' ');
        SplitOnFields(l.fields[0], ' ');
        SplitOnFields(l.fields[1], ' ');
        var forms := Forms(SplitOn(l.fields[0], ' '), SplitOn(l.fields[1], ' '));
        Success((Some(forms), Some(if l.word in Fillers then "UH" else l.fields[2])))
    else
      Success((None, if l.word in Fillers then Some("UH") else None))
  }

  /**
   * Reads word records: each begins where the previous one ended, the first
   * at 0; the first line that cannot be parsed stops the reading.
   */
  method ReadBuckeyeWords(lines: seq<WordLine>) returns (r: Result<seq<WordRecord>, RecordError>)
    ensures r.Success? <==> forall k :: 0 <= k < |lines| ==> ParseWordLine(lines[k], k).Success?
    ensures r.Failure? ==>
      exists k :: 0 <= k < |lines| && (forall j :: 0 <= j < k ==> ParseWordLine(lines[j], j).Success?)
        && ParseWordLine(lines[k], k) == Failure(r.error)
    ensures r.Success? ==>
      && |r.value| == |lines|
      && forall k :: 0 <= k < |lines| ==>
        && r.value[k].spelling == lines[k].word && r.value[k].end == lines[k].end
        && (r.value[k].forms, r.value[k].category) == ParseWordLine(lines[k], k).value
    ensures r.Success? && |lines| > 0 ==> r.value[0].begin == 0.0
    ensures r.Success? ==> forall k :: 0 < k < |lines| ==> r.value[k].begin == r.value[k - 1].end
  {
    var words: seq<WordRecord> := [];
    var begin := 0.0;
    var i := 0;
    while i < |lines|
      invariant 0 <= i <= |lines| && |words| == i
      invariant forall k :: 0 <= k < i ==> ParseWordLine(lines[k], k).Success?
      invariant forall k :: 0 <= k < i ==>
        && words[k].spelling == lines[k].word && words[k].end == lines[k].end
        && (words[k].forms, words[k].category) == ParseWordLine(lines[k], k).value
      invariant i > 0 ==> words[0].begin == 0.0 && begin == lines[i - 1].end
      invariant i == 0 ==> begin == 0.0
      invariant forall k :: 0 < k < i ==> words[k].begin == words[k - 1].end
    {
      var parsed := ParseWordLine(lines[i], i);
      if parsed.Failure? {
        return Failure(parsed.error);
      }
      words := words + [WordRecord(lines[i].word, begin, lines[i].end, parsed.value.0, parsed.value.1)];
      begin := lines[i].end;
      i := i + 1;
    }
    r := Success(words);
  }

  // ---------------------------------------------------------------------------
  // Merging words and phones
  // ---------------------------------------------------------------------------

  /** The phone queue ran out: popped while empty, or emptied before the last word. */
  datatype MergeError = QueueEmpty(word: nat) | QueueDrained(word: nat)

  /** A TIMIT phone that ends the word: it does not start before it and ends with it. */
  predicate Closes(p: Phone, w: WordRecord)
  {
    p.begin >= w.begin && p.end == w.end
  }

  /** The phones of `ps` that do not start before `w`, in order. */
  function Kept(ps: seq<Phone>, w: WordRecord): (r: seq<Phone>)
    ensures forall p :: p in r ==> p in ps && p.begin >= w.begin
    decreases |ps|
  {
    if ps == [] then []
    else (if ps[0].begin < w.begin then [] else [ps[0]]) + Kept(ps[1..], w)
  }

  function Prepend(found: seq<Phone>, r: Option<(seq<Phone>, seq<Phone>)>): Option<(seq<Phone>, seq<Phone>)>
  {
    match r
    case None => None
    case Some(fr) => Some((found + fr.0, fr.1))
  }

  lemma PrependAssoc(a: seq<Phone>, b: seq<Phone>, r: Option<(seq<Phone>, seq<Phone>)>)
    ensures Prepend([], r) == r
    ensures Prepend(a, Prepend(b, r)) == Prepend(a + b, r)
  {
    if r.Some? {
      assert [] + r.value.0 == r.value.0;
      assert a + (b + r.value.0) == (a + b) + r.value.0;
    }
  }

  /**
   * The phones of one TIMIT word: pop phones, dropping those that start before
   * the word, until one ends exactly where the word ends; None when the queue
   * runs out first. Returns the kept phones and the rest of the queue.
   */
  function TimitTake(queue: seq<Phone>, w: WordRecord): Option<(seq<Phone>, seq<Phone>)>
    decreases |queue|
  {
    if queue == [] then None
    else if queue[0].begin < w.begin then TimitTake(queue[1..], w)
    else if queue[0].end == w.end then Some(([queue[0]], queue[1..]))
    else Prepend([queue[0]], TimitTake(queue[1..], w))
  }

  /** The take fails exactly when no phone closes the word. */
  lemma {:induction false} TimitTakeFails(queue: seq<Phone>, w: WordRecord)
    ensures TimitTake(queue, w).None? <==> forall k :: 0 <= k < |queue| ==> !Closes(queue[k], w)
    decreases |queue|
  {
    if queue != [] {
      TimitTakeFails(queue[1..], w);
      forall k | 0 < k < |queue| ensures queue[k] == queue[1..][k - 1] { }
    }
  }

  /** Keeping the phones of a non-empty prefix, one phone at a time. */
  lemma KeptCons(queue: seq<Phone>, k: nat, w: WordRecord)
    requires k < |queue|
    ensures Kept(queue[..k + 1], w) == (if queue[0].begin < w.begin then [] else [queue[0]]) + Kept(queue[1..][..k], w)
  {
    assert queue[..k + 1][1..] == queue[1..][..k];
  }

  /**
   * A successful take stops at the first closing phone, keeps that phone and
   * the earlier ones that do not start before the word, and leaves the queue
   * after it.
   */
  lemma {:induction false} TimitTakeStops(queue: seq<Phone>, w: WordRecord)
    requires TimitTake(queue, w).Some?
    ensures exists k :: 0 <= k < |queue| && Closes(queue[k], w)
                        && (forall j :: 0 <= j < k ==> !Closes(queue[j], w))
                        && TimitTake(queue, w).value == (Kept(queue[..k], w) + [queue[k]], queue[k + 1..])
    decreases |queue|
  {
    var tail := queue[1..];
    if Closes(queue[0], w) {
      assert Kept(queue[..0], w) == [];
      assert TimitTake(queue, w) == Some(([queue[0]], queue[1..]));
      assert TimitTake(queue, w).value.0 == Kept(queue[..0], w) + [queue[0]];
      assert TimitTake(queue, w).value == (Kept(queue[..0], w) + [queue[0]], queue[0 + 1..]);
    } else {
      TimitTakeStops(tail, w);
      var k :| 0 <= k < |tail| && Closes(tail[k], w)
        && (forall j :: 0 <= j < k ==> !Closes(tail[j], w))
        && TimitTake(tail, w).value == (Kept(tail[..k], w) + [tail[k]], tail[k + 1..]);
      StopsLater(queue, w, k);
    }
  }

  /** A take that goes past the first phone stops one position later than the take after it. */
  lemma StopsLater(queue: seq<Phone>, w: WordRecord, k: nat)
    requires |queue| > 0 && !Closes(queue[0], w)
    requires k < |queue| - 1 && Closes(queue[1..][k], w)
    requires forall j :: 0 <= j < k ==> !Closes(queue[1..][j], w)
    requires TimitTake(queue[1..], w).Some?
    requires TimitTake(queue[1..], w).value == (Kept(queue[1..][..k], w) + [queue[1..][k]], queue[1..][k + 1..])
    ensures Closes(queue[k + 1], w) && forall j :: 0 <= j < k + 1 ==> !Closes(queue[j], w)
    ensures TimitTake(queue, w).value == (Kept(queue[..k + 1], w) + [queue[k + 1]], queue[k + 1 + 1..])
  {
    var tail := queue[1..];
    KeptCons(queue, k, w);
    assert queue[k + 1] == tail[k] && queue[k + 2..] == tail[k + 1..];
    assert forall j :: 0 < j < k + 1 ==> queue[j] == tail[j - 1];
    assert TimitTake(queue, w).value.1 == queue[k + 1 + 1..];
    if queue[0].begin >= w.begin {
      assert TimitTake(queue, w) == Prepend([queue[0]], TimitTake(tail, w));
      assert TimitTake(queue, w).value.0 == [queue[0]] + (Kept(tail[..k], w) + [tail[k]]);
    }
    assert TimitTake(queue, w).value.0 == Kept(queue[..k + 1], w) + [queue[k + 1]];
  }

  /** Pops the phones of one TIMIT word off the queue. */
  method TakeTimit(queue: seq<Phone>, w: WordRecord) returns (r: Option<(seq<Phone>, seq<Phone>)>)
    ensures r == TimitTake(queue, w)
  {
    var rest := queue;
    var found: seq<Phone> := [];
    PrependAssoc([], [], TimitTake(queue, w));
    while true
      invariant TimitTake(queue, w) == Prepend(found, TimitTake(rest, w))
      decreases |rest|
    {
      if rest == [] {
        return None;
      }
      var p := rest[0];
      rest := rest[1..];
      if p.begin < w.begin {
        continue;
      }
      if p.end == w.end {
        return Some((found + [p], rest));
      }
      PrependAssoc(found, [p], TimitTake(rest, w));
      found := found + [p];
    }
  }

  /** The TIMIT word as planned: its phones make its "transcription" range. */
  function TimitPlanned(w: WordRecord, found: seq<Phone>): Planned
  {
    Planned("spelling", w.spelling, map["transcription" := UnitsOf(found)], map[], map[])
  }

  function TimitPlanFrom(words: seq<WordRecord>, i: nat, queue: seq<Phone>, acc: seq<Planned>)
    : Result<seq<Planned>, MergeError>
    requires i <= |words|
    decreases |words| - i
  {
    if i == |words| then Success(acc)
    else match TimitTake(queue, words[i])
      case None => Failure(QueueEmpty(i))
      case Some(fr) => TimitPlanFrom(words, i + 1, fr.1, acc + [TimitPlanned(words[i], fr.0)])
  }

  /** The words of a TIMIT merge, in order, or the first word the phones run out on. */
  function TimitPlan(words: seq<WordRecord>, phones: seq<Phone>): Result<seq<Planned>, MergeError>
  {
    TimitPlanFrom(words, 0, phones, [])
  }

  /** A planned TIMIT word: its phones start within it and the last one ends with it. */
  ghost predicate TimitWordPlanned(w: WordRecord, p: Planned)
  {
    && p.level == "spelling" && p.mark == w.spelling
    && p.units.Keys == {"transcription"}
    && |p.units["transcription"]| > 0
    && (forall u :: u in p.units["transcription"] ==> u.begin.Some? && u.begin.value >= w.begin)
    && p.units["transcription"][|p.units["transcription"]| - 1].end == Some(w.end)
  }

  /** The phones taken for a word make a planned TIMIT word. */
  lemma TimitTakePlanned(queue: seq<Phone>, w: WordRecord)
    requires TimitTake(queue, w).Some?
    ensures TimitWordPlanned(w, TimitPlanned(w, TimitTake(queue, w).value.0))
  {
    TimitTakeStops(queue, w);
    var found := TimitTake(queue, w).value.0;
    var k :| 0 <= k < |queue| && Closes(queue[k], w) && found == Kept(queue[..k], w) + [queue[k]];
    var us := UnitsOf(found);
    forall u | u in us ensures u.begin.Some? && u.begin.value >= w.begin {
      var m :| 0 <= m < |us| && us[m] == u;
      assert found[m] in found;
    }
  }

  lemma {:induction false} TimitPlanFromShape(words: seq<WordRecord>, i: nat, queue: seq<Phone>, acc: seq<Planned>)
    requires i <= |words|
    requires TimitPlanFrom(words, i, queue, acc).Success?
    ensures var plans := TimitPlanFrom(words, i, queue, acc).value;
      && |plans| == |acc| + |words| - i && plans[..|acc|] == acc
      && forall k :: i <= k < |words| ==> TimitWordPlanned(words[k], plans[|acc| + k - i])
    decreases |words| - i
  {
    if i < |words| {
      var fr := TimitTake(queue, words[i]).value;
      TimitTakePlanned(queue, words[i]);
      var p := TimitPlanned(words[i], fr.0);
      TimitPlanFromShape(words, i + 1, fr.1, acc + [p]);
      var plans := TimitPlanFrom(words, i, queue, acc).value;
      assert plans[..|acc| + 1][..|acc|] == plans[..|acc|];
    }
  }

  /** A successful TIMIT merge plans every word, each closed by its last phone. */
  lemma TimitPlanShape(words: seq<WordRecord>, phones: seq<Phone>)
    requires TimitPlan(words, phones).Success?
    ensures |TimitPlan(words, phones).value| == |words|
    ensures forall k :: 0 <= k < |words| ==> TimitWordPlanned(words[k], TimitPlan(words, phones).value[k])
  {
    TimitPlanFromShape(words, 0, phones, []);
  }

  /** The TIMIT merge fails on the first word when no phone closes it. */
  lemma TimitFirstWordFails(words: seq<WordRecord>, phones: seq<Phone>)
    requires |words| > 0
    requires forall k :: 0 <= k < |phones| ==> !Closes(phones[k], words[0])
    ensures TimitPlan(words, phones) == Failure(QueueEmpty(0))
  {
    TimitTakeFails(phones, words[0]);
  }

  /** Builds one TIMIT word and its phones against the current level length. */
  method BuildTimitWord(d: DiscourseData, w: WordRecord, queue: seq<Phone>)
    returns (r: Option<(Annotation, map<string, seq<BaseAnnotation>>, seq<Phone>)>)
    requires "transcription" in d.baseLevels
    ensures r.None? <==> TimitTake(queue, w).None?
    ensures r.Some? ==>
      && Fits(r.value.0.refs, r.value.1, d.baseLevels)
      && Built(r.value.0, r.value.1, TimitPlanned(w, TimitTake(queue, w).value.0))
      && r.value.2 == TimitTake(queue, w).value.1
  {
    var taken := TakeTimit(queue, w);
    if taken.None? {
      return None;
    }
    var found := taken.value.0;
    var count := d.LevelLength("transcription");
    var word := Annotation(w.spelling, map["transcription" := Range(count, count + |found|)], map[], map[]);
    r := Some((word, map["transcription" := UnitsOf(found)], taken.value.1));
  }

  /** Adds the TIMIT words in order, each with the phones popped for it. */
  method TimitToData(name: string, words: seq<WordRecord>, phones: seq<Phone>)
    returns (r: Result<DiscourseData, MergeError>)
    ensures r.Failure? <==> TimitPlan(words, phones).Failure?
    ensures r.Failure? ==> r.error == TimitPlan(words, phones).error
    ensures r.Success? ==>
      && fresh(r.value) && r.value.Valid() && r.value.name == name && r.value.types == TimitTypes()
      && Realizes(r.value.log, r.value.baseLevels, TimitPlan(words, phones).value)
      && forall n :: n in r.value.baseLevels ==> r.value.baseLevels[n] == Gather(TimitPlan(words, phones).value, n)
  {
    var d := new DiscourseData(name, TimitTypes());
    assert TimitTypes()[0] in TimitTypes() && TimitTypes()[1] in TimitTypes();
    var queue := phones;
    ghost var plans: seq<Planned> := [];
    var i := 0;
    while i < |words|
      invariant 0 <= i <= |words|
      invariant fresh(d) && d.Valid() && d.name == name && d.types == TimitTypes()
      invariant "transcription" in d.baseLevels && "spelling" in d.wordLevels
      invariant Realizes(d.log, d.baseLevels, plans)
      invariant TimitPlan(words, phones) == TimitPlanFrom(words, i, queue, plans)
    {
      var built := BuildTimitWord(d, words[i], queue);
      if built.None? {
        return Failure(QueueEmpty(i));
      }
      ghost var p := TimitPlanned(words[i], TimitTake(queue, words[i]).value.0);
      AddKeepsRealizes(d.log, d.baseLevels, plans, "spelling", built.value.0, built.value.1, p);
      d.AddAnnotations("spelling", built.value.0, built.value.1);
      plans := plans + [p];
      queue := built.value.2;
      i := i + 1;
    }
    forall n | n in d.baseLevels ensures d.baseLevels[n] == Gather(plans, n) {
      LevelIsGathered(d.log, d.baseLevels, d.wordLevels, plans, n);
    }
    r := Success(d);
  }

  /** A Buckeye phone accepted for an expected label: it matches and overlaps the word. */
  predicate Accepts(p: Phone, expected: string, w: WordRecord)
  {
    PhoneMatch(p.mark, expected) && p.end >= w.begin && p.begin <= w.end
  }

  /** `xs` is a subsequence of `ys`: its elements are distinct positions of `ys`, in order. */
  predicate SubseqOf<T(==)>(xs: seq<T>, ys: seq<T>)
    decreases |ys|
  {
    xs == [] || (ys != [] && ((xs[0] == ys[0] && SubseqOf(xs[1..], ys[1..])) || SubseqOf(xs, ys[1..])))
  }

  /** Subsequences of two stretches make a subsequence of the stretches joined. */
  lemma {:induction false} SubseqConcat<T>(a: seq<T>, x: seq<T>, b: seq<T>, y: seq<T>)
    requires SubseqOf(a, x) && SubseqOf(b, y)
    ensures SubseqOf(a + b, x + y)
    decreases |x|
  {
    if x == [] {
      assert a == [] && a + b == b && x + y == y;
    } else if a == [] {
      assert SubseqOf(b, x[1..] + y) by { SubseqConcat(a, x[1..], b, y); assert a + b == b; }
      assert (x + y)[1..] == x[1..] + y;
      assert a + b == b;
    } else if a[0] == x[0] && SubseqOf(a[1..], x[1..]) {
      SubseqConcat(a[1..], x[1..], b, y);
      assert (a + b)[1..] == a[1..] + b && (x + y)[1..] == x[1..] + y;
    } else {
      SubseqConcat(a, x[1..], b, y);
      assert (x + y)[1..] == x[1..] + y;
    }
  }

  /** Phones in order give their units in order. */
  lemma {:induction false} SubseqUnits(xs: seq<Phone>, ys: seq<Phone>)
    requires SubseqOf(xs, ys)
    ensures SubseqOf(UnitsOf(xs), UnitsOf(ys))
    decreases |ys|
  {
    if xs != [] {
      assert UnitsOf(ys)[1..] == UnitsOf(ys[1..]);
      if xs[0] == ys[0] && SubseqOf(xs[1..], ys[1..]) {
        SubseqUnits(xs[1..], ys[1..]);
        assert UnitsOf(xs)[1..] == UnitsOf(xs[1..]);
      } else {
        SubseqUnits(xs, ys[1..]);
      }
    }
  }

  lemma UnitsOfAppend(xs: seq<Phone>, ys: seq<Phone>)
    ensures UnitsOf(xs + ys) == UnitsOf(xs) + UnitsOf(ys)
  {
    assert |UnitsOf(xs + ys)| == |UnitsOf(xs) + UnitsOf(ys)|;
  }

  /**
   * The phones of one Buckeye word: pop phones until as many were accepted as
   * the word has phonetic symbols, dropping the others; popping an empty
   * queue fails, and so does emptying the queue before the last word.
   */
  function BuckeyeTake(queue: seq<Phone>, expected: seq<string>, found: seq<Phone>, w: WordRecord,
                       i: nat, notLast: bool): Result<(seq<Phone>, seq<Phone>), MergeError>
    decreases |queue|
  {
    if |found| >= |expected| then Success((found, queue))
    else if queue == [] then Failure(QueueEmpty(i))
    else
      var found' := if Accepts(queue[0], expected[|found|], w) then found + [queue[0]] else found;
      if queue[1..] == [] && notLast then Failure(QueueDrained(i))
      else BuckeyeTake(queue[1..], expected, found', w, i, notLast)
  }

  /**
   * A successful take accepts one phone per expected symbol, each matching its
   * symbol and overlapping the word, all taken from the queue, and leaves a
   * suffix of the queue; the last word can only fail by popping an empty queue.
   */
  lemma {:induction false} BuckeyeTakeShape(queue: seq<Phone>, expected: seq<string>, found: seq<Phone>,
                                            w: WordRecord, i: nat, notLast: bool)
    requires |found| <= |expected|
    ensures var r := BuckeyeTake(queue, expected, found, w, i, notLast);
      r.Success? ==>
        && |r.value.0| == |expected| && r.value.0[..|found|] == found
        && (forall k :: |found| <= k < |expected| ==> Accepts(r.value.0[k], expected[k], w) && r.value.0[k] in queue)
        && |r.value.1| <= |queue| && r.value.1 == queue[|queue| - |r.value.1|..]
    ensures var r := BuckeyeTake(queue, expected, found, w, i, notLast);
      r.Failure? ==> r.error == QueueEmpty(i) || (notLast && r.error == QueueDrained(i))
    decreases |queue|
  {
    if |found| < |expected| && queue != [] && !(queue[1..] == [] && notLast) {
      var found' := if Accepts(queue[0], expected[|found|], w) then found + [queue[0]] else found;
      BuckeyeTakeShape(queue[1..], expected, found', w, i, notLast);
      var r := BuckeyeTake(queue, expected, found, w, i, notLast);
      if r.Success? {
        var f := r.value.0;
        assert f[..|found'|][..|found|] == f[..|found|];
        forall k | |found| <= k < |expected| ensures Accepts(f[k], expected[k], w) && f[k] in queue {
          if k >= |found'| {
            assert f[k] in queue[1..];
          } else {
            assert f[k] == f[..|found'|][k];
          }
        }
      }
    }
  }

  /**
   * The phones a successful take accepts are distinct phones of the popped
   * prefix, in pop order; the take stops right after popping the last one it
   * accepts; and before the last word it never empties the queue.
   */
  lemma {:induction false} BuckeyeTakeOrder(queue: seq<Phone>, expected: seq<string>, found: seq<Phone>,
                                            w: WordRecord, i: nat, notLast: bool)
    requires |found| <= |expected|
    ensures var r := BuckeyeTake(queue, expected, found, w, i, notLast);
      r.Success? ==>
        && |r.value.0| == |expected| && |r.value.1| <= |queue|
        && SubseqOf(r.value.0[|found|..], queue[..|queue| - |r.value.1|])
        && (|found| < |expected| ==>
              |r.value.1| < |queue| && queue[|queue| - |r.value.1| - 1] == r.value.0[|expected| - 1])
        && (notLast && |found| < |expected| ==> r.value.1 != [])
    decreases |queue|
  {
    BuckeyeTakeShape(queue, expected, found, w, i, notLast);
    if |found| >= |expected| {
      assert found[|found|..] == [];
    } else if queue != [] && !(queue[1..] == [] && notLast) {
      var found' := if Accepts(queue[0], expected[|found|], w) then found + [queue[0]] else found;
      BuckeyeTakeOrder(queue[1..], expected, found', w, i, notLast);
      BuckeyeTakeShape(queue[1..], expected, found', w, i, notLast);
      var r := BuckeyeTake(queue, expected, found, w, i, notLast);
      if r.Success? {
        var f := r.value.0;
        assert f[..|found'|][..|found|] == f[..|found|];
        BuckeyeTakeOrderStep(queue, f, found, found', r.value.1);
      }
    }
  }

  /**
   * What a take promises: one accepted phone per expected symbol, each matching
   * its symbol and overlapping the word; the accepted phones are distinct phones
   * of the popped prefix, in pop order, the last of them popped last; the rest
   * is the queue after that prefix, non-empty before the last word; a failure
   * is an empty pop or, before the last word, an emptied queue.
   */
  lemma BuckeyeTakeSpec(queue: seq<Phone>, expected: seq<string>, found: seq<Phone>,
                        w: WordRecord, i: nat, notLast: bool)
    requires |found| <= |expected|
    ensures var r := BuckeyeTake(queue, expected, found, w, i, notLast);
      r.Success? ==>
        && |r.value.0| == |expected| && r.value.0[..|found|] == found
        && (forall k :: |found| <= k < |expected| ==> Accepts(r.value.0[k], expected[k], w) && r.value.0[k] in queue)
        && |r.value.1| <= |queue| && r.value.1 == queue[|queue| - |r.value.1|..]
        && SubseqOf(r.value.0[|found|..], queue[..|queue| - |r.value.1|])
        && (|found| < |expected| ==>
              |r.value.1| < |queue| && queue[|queue| - |r.value.1| - 1] == r.value.0[|expected| - 1])
        && (notLast && |found| < |expected| ==> r.value.1 != [])
    ensures var r := BuckeyeTake(queue, expected, found, w, i, notLast);
      r.Failure? ==> r.error == QueueEmpty(i) || (notLast && r.error == QueueDrained(i))
  {
    BuckeyeTakeShape(queue, expected, found, w, i, notLast);
    BuckeyeTakeOrder(queue, expected, found, w, i, notLast);
  }

  /** One pop extends the order facts of the rest of the take to the whole take. */
  lemma BuckeyeTakeOrderStep(queue: seq<Phone>, f: seq<Phone>, found: seq<Phone>, found': seq<Phone>, rest: seq<Phone>)
    requires queue != [] && |found| < |found'| + 1 <= |f| + 1
    requires found' == found || found' == found + [queue[0]]
    requires f[..|found'|] == found' && f[..|found|] == found
    requires |rest| <= |queue| - 1 && rest == queue[|queue| - |rest|..]
    requires SubseqOf(f[|found'|..], queue[1..][..|queue| - 1 - |rest|])
    ensures SubseqOf(f[|found|..], queue[..|queue| - |rest|])
  {
    var consumed := queue[..|queue| - |rest|];
    assert consumed[1..] == queue[1..][..|queue| - 1 - |rest|];
    if found' == found + [queue[0]] {
      assert f[|found|] == queue[0] by { assert f[|found|] == f[..|found'|][|found|]; }
      assert f[|found|..][1..] == f[|found'|..];
    } else {
      assert f[|found|..] == f[|found'|..];
    }
  }

  /**
   * The expected symbols can be matched, in order, to distinct phones of
   * `avail` that each accept their symbol: a matching chosen freely, not by
   * the greedy pop loop.
   */
  predicate Embeds(expected: seq<string>, avail: seq<Phone>, w: WordRecord)
    decreases |avail|
  {
    expected == [] ||
    (avail != [] && ((Accepts(avail[0], expected[0], w) && Embeds(expected[1..], avail[1..], w))
                     || Embeds(expected, avail[1..], w)))
  }

  /** A matching of all symbols gives a matching of all but the first. */
  lemma {:induction false} EmbedsTail(expected: seq<string>, avail: seq<Phone>, w: WordRecord)
    requires expected != [] && Embeds(expected, avail, w)
    ensures Embeds(expected[1..], avail, w)
    decreases |avail|
  {
    if !(Accepts(avail[0], expected[0], w) && Embeds(expected[1..], avail[1..], w)) {
      EmbedsTail(expected, avail[1..], w);
    }
  }

  /** The phones the take may pop: all of them for the last word, all but the last one otherwise. */
  function Avail(queue: seq<Phone>, notLast: bool): (r: seq<Phone>)
    ensures |r| == if notLast && queue != [] then |queue| - 1 else |queue|
  {
    if notLast && queue != [] then queue[..|queue| - 1] else queue
  }

  /**
   * The greedy take succeeds exactly when the remaining symbols can be matched
   * in order to phones it may pop: taking the first acceptable phone never
   * loses a matching.
   */
  lemma {:induction false} BuckeyeTakeSucceeds(queue: seq<Phone>, expected: seq<string>, found: seq<Phone>,
                                               w: WordRecord, i: nat, notLast: bool)
    requires |found| <= |expected|
    ensures BuckeyeTake(queue, expected, found, w, i, notLast).Success? <==>
      Embeds(expected[|found|..], Avail(queue, notLast), w)
    decreases |queue|
  {
    var e := expected[|found|..];
    if |found| < |expected| && queue != [] && !(queue[1..] == [] && notLast) {
      var accepted := Accepts(queue[0], expected[|found|], w);
      var found' := if accepted then found + [queue[0]] else found;
      BuckeyeTakeSucceeds(queue[1..], expected, found', w, i, notLast);
      var a' := Avail(queue[1..], notLast);
      assert Avail(queue, notLast)[0] == queue[0] && Avail(queue, notLast)[1..] == a';
      if accepted {
        assert expected[|found'|..] == e[1..];
        if Embeds(e, Avail(queue, notLast), w) && !Embeds(e[1..], a', w) {
          EmbedsTail(e, a', w);
        }
      }
    } else if |found| < |expected| && queue != [] {
      assert Avail(queue, notLast) == [];
    }
  }

  /** Pops the phones of one Buckeye word off the queue. */
  method TakeBuckeye(queue: seq<Phone>, expected: seq<string>, w: WordRecord, i: nat, notLast: bool)
    returns (r: Result<(seq<Phone>, seq<Phone>), MergeError>)
    ensures r == BuckeyeTake(queue, expected, [], w, i, notLast)
  {
    var rest := queue;
    var found: seq<Phone> := [];
    while |found| < |expected|
      invariant BuckeyeTake(queue, expected, [], w, i, notLast) == BuckeyeTake(rest, expected, found, w, i, notLast)
      decreases |rest|
    {
      if rest == [] {
        return Failure(QueueEmpty(i));
      }
      var p := rest[0];
      rest := rest[1..];
      if PhoneMatch(p.mark, expected[|found|]) && p.end >= w.begin && p.begin <= w.end {
        found := found + [p];
      }
      if |rest| == 0 && notLast {
        return Failure(QueueDrained(i));
      }
    }
    r := Success((found, rest));
  }

  /** The value stored for a category: its label, or no value. */
  function CategoryValue(c: Option<string>): Value
  {
    match c
    case None => NoValue
    case Some(s) => Text(s)
  }

  /**
   * The Buckeye word as planned. A word without forms spans no units of either
   * base level and pops nothing; otherwise its citation symbols make its
   * "transcription" range, the popped phones its "surface_transcription"
   * range, and its category is a token attribute.
   */
  function BuckeyeWord(w: WordRecord, i: nat, notLast: bool, queue: seq<Phone>)
    : Result<(Planned, seq<Phone>), MergeError>
  {
    if w.forms.None? then
      Success((Planned("spelling", w.spelling, map["transcription" := [], "surface_transcription" := []], map[], map[]), queue))
    else match BuckeyeTake(queue, w.forms.value.phonetic, [], w, i, notLast)
      case Failure(e) => Failure(e)
      case Success(fr) =>
        var units := map["transcription" := SymbolUnits(w.forms.value.citation), "surface_transcription" := UnitsOf(fr.0)];
        Success((Planned("spelling", w.spelling, units, map["category" := CategoryValue(w.category)], map[]), fr.1))
  }

  /** What a planned Buckeye word holds. */
  ghost predicate BuckeyeWordPlanned(w: WordRecord, p: Planned)
  {
    && p.level == "spelling" && p.mark == w.spelling
    && p.units.Keys == {"transcription", "surface_transcription"}
    && p.additional == map[]
    && (w.forms.None? ==>
          p.units["transcription"] == [] && p.units["surface_transcription"] == [] && p.token == map[])
    && (w.forms.Some? ==>
          && |p.units["transcription"]| == |w.forms.value.citation|
          && (forall k :: 0 <= k < |w.forms.value.citation| ==>
                p.units["transcription"][k] == BaseAnnotation(w.forms.value.citation[k], None, None))
          && |p.units["surface_transcription"]| == |w.forms.value.phonetic|
          && (forall k :: 0 <= k < |w.forms.value.phonetic| ==>
                var u := p.units["surface_transcription"][k];
                && PhoneMatch(u.mark, w.forms.value.phonetic[k])
                && u.begin.Some? && u.end.Some? && u.end.value >= w.begin && u.begin.value <= w.end)
          && p.token == map["category" := CategoryValue(w.category)])
  }

  /** A word's plan holds what the word promises and leaves a suffix of the queue. */
  lemma BuckeyeWordShape(w: WordRecord, i: nat, notLast: bool, queue: seq<Phone>)
    requires BuckeyeWord(w, i, notLast, queue).Success?
    ensures BuckeyeWordPlanned(w, BuckeyeWord(w, i, notLast, queue).value.0)
    ensures var rest := BuckeyeWord(w, i, notLast, queue).value.1;
      |rest| <= |queue| && rest == queue[|queue| - |rest|..]
    ensures w.forms.None? ==> BuckeyeWord(w, i, notLast, queue).value.1 == queue
    ensures var rest := BuckeyeWord(w, i, notLast, queue).value.1;
      SubseqOf(BuckeyeWord(w, i, notLast, queue).value.0.units["surface_transcription"], UnitsOf(queue[..|queue| - |rest|]))
  {
    if w.forms.Some? {
      var expected := w.forms.value.phonetic;
      BuckeyeTakeSpec(queue, expected, [], w, i, notLast);
      var fr := BuckeyeTake(queue, expected, [], w, i, notLast).value;
      assert fr.0[0..] == fr.0;
      SubseqUnits(fr.0, queue[..|queue| - |fr.1|]);
    } else {
      assert queue[|queue| - |queue|..] == queue;
    }
  }

  /** A Buckeye word is planned exactly when its phonetic symbols can be matched, in order, to phones it may pop. */
  lemma BuckeyeWordSucceeds(w: WordRecord, i: nat, notLast: bool, queue: seq<Phone>)
    ensures BuckeyeWord(w, i, notLast, queue).Success? <==>
      w.forms.None? || Embeds(w.forms.value.phonetic, Avail(queue, notLast), w)
  {
    if w.forms.Some? {
      BuckeyeTakeSucceeds(queue, w.forms.value.phonetic, [], w, i, notLast);
      assert w.forms.value.phonetic[0..] == w.forms.value.phonetic;
    }
  }

  function BuckeyePlanFrom(words: seq<WordRecord>, i: nat, queue: seq<Phone>, acc: seq<Planned>)
    : Result<seq<Planned>, MergeError>
    requires i <= |words|
    decreases |words| - i
  {
    if i == |words| then Success(acc)
    else match BuckeyeWord(words[i], i, i < |words| - 1, queue)
      case Failure(e) => Failure(e)
      case Success(pr) => BuckeyePlanFrom(words, i + 1, pr.1, acc + [pr.0])
  }

  /** The words of a Buckeye merge, in order, or where the phones ran out. */
  function BuckeyePlan(words: seq<WordRecord>, phones: seq<Phone>): Result<seq<Planned>, MergeError>
  {
    BuckeyePlanFrom(words, 0, phones, [])
  }

  /** Each remaining word of a successful merge is planned as the word promises. */
  lemma {:induction false} BuckeyePlanFromPlanned(words: seq<WordRecord>, i: nat, queue: seq<Phone>, acc: seq<Planned>)
    requires i <= |words|
    requires BuckeyePlanFrom(words, i, queue, acc).Success?
    ensures var plans := BuckeyePlanFrom(words, i, queue, acc).value;
      && |plans| == |acc| + |words| - i && plans[..|acc|] == acc
      && (forall k :: i <= k < |words| ==> BuckeyeWordPlanned(words[k], plans[|acc| + k - i]))
    decreases |words| - i
  {
    if i < |words| {
      BuckeyeWordShape(words[i], i, i < |words| - 1, queue);
      var pr := BuckeyeWord(words[i], i, i < |words| - 1, queue).value;
      BuckeyePlanFromPlanned(words, i + 1, pr.1, acc + [pr.0]);
      var plans := BuckeyePlanFrom(words, i, queue, acc).value;
      assert plans[..|acc| + 1][..|acc|] == plans[..|acc|];
    }
  }

  /**
   * The rest of a successful merge plans each remaining word as the word
   * promises, and the remaining words pop their phones in queue order.
   */
  lemma BuckeyePlanFromShape(words: seq<WordRecord>, i: nat, queue: seq<Phone>, acc: seq<Planned>)
    requires i <= |words|
    requires BuckeyePlanFrom(words, i, queue, acc).Success?
    ensures var plans := BuckeyePlanFrom(words, i, queue, acc).value;
      && |plans| == |acc| + |words| - i && plans[..|acc|] == acc
      && (forall k :: i <= k < |words| ==> BuckeyeWordPlanned(words[k], plans[|acc| + k - i]))
      && SurfaceFollows(plans, acc, queue)
  {
    BuckeyePlanFromPlanned(words, i, queue, acc);
    BuckeyePlanFromOrdered(words, i, queue, acc);
  }

  /**
   * The surface units that `plans` adds after those of `acc` follow `queue` in
   * order: `plans` extends `acc`, and its further surface units are a
   * subsequence of the units of `queue`.
   */
  predicate SurfaceFollows(plans: seq<Planned>, acc: seq<Planned>, queue: seq<Phone>)
  {
    var g, ga := Gather(plans, "surface_transcription"), Gather(acc, "surface_transcription");
    |ga| <= |g| && g[..|ga|] == ga && SubseqOf(g[|ga|..], UnitsOf(queue))
  }

  /** A word that pops `consumed` in order, ahead of the rest, keeps the surface units in queue order. */
  lemma SurfaceFollowsStep(plans: seq<Planned>, acc: seq<Planned>, p: Planned, consumed: seq<Phone>, rest: seq<Phone>)
    requires "surface_transcription" in p.units
    requires SubseqOf(p.units["surface_transcription"], UnitsOf(consumed))
    requires SurfaceFollows(plans, acc + [p], rest)
    ensures SurfaceFollows(plans, acc, consumed + rest)
  {
    var u := p.units["surface_transcription"];
    var g, ga := Gather(plans, "surface_transcription"), Gather(acc, "surface_transcription");
    assert (acc + [p])[..|acc|] == acc;
    var ga' := Gather(acc + [p], "surface_transcription");
    assert ga' == ga + u;
    assert g[..|ga|] == g[..|ga'|][..|ga|];
    assert g[|ga|..] == u + g[|ga'|..];
    UnitsOfAppend(consumed, rest);
    SubseqConcat(u, UnitsOf(consumed), g[|ga'|..], UnitsOf(rest));
  }

  /** Each remaining word pops its phones after those of the words before it. */
  lemma {:induction false} BuckeyePlanFromOrdered(words: seq<WordRecord>, i: nat, queue: seq<Phone>, acc: seq<Planned>)
    requires i <= |words|
    requires BuckeyePlanFrom(words, i, queue, acc).Success?
    ensures SurfaceFollows(BuckeyePlanFrom(words, i, queue, acc).value, acc, queue)
    decreases |words| - i
  {
    if i == |words| {
      var g := Gather(acc, "surface_transcription");
      assert g[|g|..] == [];
    } else {
      BuckeyeWordShape(words[i], i, i < |words| - 1, queue);
      var pr := BuckeyeWord(words[i], i, i < |words| - 1, queue).value;
      BuckeyePlanFromOrdered(words, i + 1, pr.1, acc + [pr.0]);
      var consumed := queue[..|queue| - |pr.1|];
      assert queue == consumed + pr.1;
      SurfaceFollowsStep(BuckeyePlanFrom(words, i, queue, acc).value, acc, pr.0, consumed, pr.1);
    }
  }

  /** A successful Buckeye merge plans every word as the word promises. */
  lemma BuckeyePlanShape(words: seq<WordRecord>, phones: seq<Phone>)
    requires BuckeyePlan(words, phones).Success?
    ensures |BuckeyePlan(words, phones).value| == |words|
    ensures forall k :: 0 <= k < |words| ==> BuckeyeWordPlanned(words[k], BuckeyePlan(words, phones).value[k])
    ensures SubseqOf(Gather(BuckeyePlan(words, phones).value, "surface_transcription"), UnitsOf(phones))
  {
    BuckeyePlanFromShape(words, 0, phones, []);
    assert Gather([], "surface_transcription") == [];
  }

  /** Words without forms need no phones: a merge of such words never fails. */
  lemma {:induction false} NonSpeechNeedsNoPhones(words: seq<WordRecord>, i: nat, queue: seq<Phone>, acc: seq<Planned>)
    requires i <= |words|
    requires forall k :: i <= k < |words| ==> words[k].forms.None?
    ensures BuckeyePlanFrom(words, i, queue, acc).Success?
    decreases |words| - i
  {
    if i < |words| {
      NonSpeechNeedsNoPhones(words, i + 1, queue, acc + [BuckeyeWord(words[i], i, i < |words| - 1, queue).value.0]);
    }
  }

  /** Builds one Buckeye word and its units against the current level lengths. */
  method BuildBuckeyeWord(d: DiscourseData, w: WordRecord, i: nat, notLast: bool, queue: seq<Phone>)
    returns (r: Result<(Annotation, map<string, seq<BaseAnnotation>>, seq<Phone>), MergeError>)
    requires "transcription" in d.baseLevels && "surface_transcription" in d.baseLevels
    ensures r.Failure? <==> BuckeyeWord(w, i, notLast, queue).Failure?
    ensures r.Failure? ==> r.error == BuckeyeWord(w, i, notLast, queue).error
    ensures r.Success? ==>
      && Fits(r.value.0.refs, r.value.1, d.baseLevels)
      && Built(r.value.0, r.value.1, BuckeyeWord(w, i, notLast, queue).value.0)
      && r.value.2 == BuckeyeWord(w, i, notLast, queue).value.1
      && BuckeyeWord(w, i, notLast, queue).value.0.level == "spelling"
  {
    var lt := d.LevelLength("transcription");
    if w.forms.None? {
      var ls := d.LevelLength("surface_transcription");
      var word := Annotation(w.spelling, map["transcription" := Range(lt, lt), "surface_transcription" := Range(ls, ls)], map[], map[]);
      return Success((word, map[], queue));
    }
    var citation := SymbolUnits(w.forms.value.citation);
    var taken := TakeBuckeye(queue, w.forms.value.phonetic, w, i, notLast);
    if taken.Failure? {
      return Failure(taken.error);
    }
    var found := taken.value.0;
    var ls := d.LevelLength("surface_transcription");
    var refs := map["transcription" := Range(lt, lt + |citation|), "surface_transcription" := Range(ls, ls + |found|)];
    var word := Annotation(w.spelling, refs, map["category" := CategoryValue(w.category)], map[]);
    var batch := map["transcription" := citation, "surface_transcription" := UnitsOf(found)];
    r := Success((word, batch, taken.value.1));
  }

  /** Adds the Buckeye words in order, each with its citation symbols and the phones popped for it. */
  method BuckeyeToData(name: string, words: seq<WordRecord>, phones: seq<Phone>)
    returns (r: Result<DiscourseData, MergeError>)
    ensures r.Failure? <==> BuckeyePlan(words, phones).Failure?
    ensures r.Failure? ==> r.error == BuckeyePlan(words, phones).error
    ensures r.Success? ==>
      && fresh(r.value) && r.value.Valid() && r.value.name == name && r.value.types == BuckeyeTypes()
      && Realizes(r.value.log, r.value.baseLevels, BuckeyePlan(words, phones).value)
      && forall n :: n in r.value.baseLevels ==> r.value.baseLevels[n] == Gather(BuckeyePlan(words, phones).value, n)
  {
    var d := new DiscourseData(name, BuckeyeTypes());
    assert BuckeyeTypes()[0] in BuckeyeTypes() && BuckeyeTypes()[1] in BuckeyeTypes() && BuckeyeTypes()[2] in BuckeyeTypes();
    var queue := phones;
    ghost var plans: seq<Planned> := [];
    var i := 0;
    while i < |words|
      invariant 0 <= i <= |words|
      invariant fresh(d) && d.Valid() && d.name == name && d.types == BuckeyeTypes()
      invariant "transcription" in d.baseLevels && "surface_transcription" in d.baseLevels && "spelling" in d.wordLevels
      invariant Realizes(d.log, d.baseLevels, plans)
      invariant BuckeyePlan(words, phones) == BuckeyePlanFrom(words, i, queue, plans)
    {
      var built := BuildBuckeyeWord(d, words[i], i, i < |words| - 1, queue);
      if built.Failure? {
        return Failure(built.error);
      }
      ghost var p := BuckeyeWord(words[i], i, i < |words| - 1, queue).value.0;
      AddKeepsRealizes(d.log, d.baseLevels, plans, "spelling", built.value.0, built.value.1, p);
      d.AddAnnotations("spelling", built.value.0, built.value.1);
      plans := plans + [p];
      queue := built.value.2;
      i := i + 1;
    }
    forall n | n in d.baseLevels ensures d.baseLevels[n] == Gather(plans, n) {
      LevelIsGathered(d.log, d.baseLevels, d.wordLevels, plans, n);
    }
    r := Success(d);
  }
}
