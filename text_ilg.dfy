/**
 * Interlinear gloss text files: lines come in blocks of a fixed size, the
 * first line of a block holds the words and each further line holds one
 * value per word. This module infers the block size and the schema, turns
 * the text into lines, reads the blocks into a discourse, and writes words
 * back out in blocks.
 */
module TextIlg {

  import opened Options
  import opened Text
  import opened Discourse

  // ---------------------------------------------------------------------------
  // Lines
  // ---------------------------------------------------------------------------

  /** A non-blank line of the file: its 0-based position among all lines, and its tokens. */
  datatype Line = Line(index: nat, tokens: seq<string>)

  datatype DelimiterError = DelimiterNotInText(delimiter: char)

  /** Splitting a stripped line: on whitespace when no delimiter is given. */
  function Tokens(s: string, delimiter: Option<char>): seq<string>
  {
    match delimiter
    case None => SplitWhitespace(s)
    case Some(d) => SplitOn(s, d)
  }

  /** Each line with leading and trailing whitespace removed. */
  function Stripped(raw: seq<string>): (r: seq<string>)
    ensures |r| == |raw| && forall i :: 0 <= i < |raw| ==> r[i] == Strip(raw[i])
  {
    seq(|raw|, i requires 0 <= i < |raw| => Strip(raw[i]))
  }

  /** The non-empty stripped lines from position `start` on, split into tokens. */
  function KeptLines(stripped: seq<string>, start: nat, delimiter: Option<char>): seq<Line>
    decreases |stripped| - start
  {
    if start >= |stripped| then []
    else if stripped[start] == [] then KeptLines(stripped, start + 1, delimiter)
    else [Line(start, Tokens(stripped[start], delimiter))] + KeptLines(stripped, start + 1, delimiter)
  }

  /** A non-empty line at `start` is kept first, followed by the lines kept after it. */
  lemma KeptLinesKept(stripped: seq<string>, start: nat, delimiter: Option<char>)
    requires start < |stripped| && stripped[start] != []
    ensures var r := KeptLines(stripped, start, delimiter);
      && |r| == |KeptLines(stripped, start + 1, delimiter)| + 1
      && r[0].index == start && IsKept(stripped, r[0], delimiter)
      && r[1..] == KeptLines(stripped, start + 1, delimiter)
  {
  }

  /** An empty line at `start` is skipped. */
  lemma KeptLinesSkipped(stripped: seq<string>, start: nat, delimiter: Option<char>)
    requires start < |stripped| && stripped[start] == []
    ensures KeptLines(stripped, start, delimiter) == KeptLines(stripped, start + 1, delimiter)
  {
  }

  /** `l` is a non-empty line of `stripped`, split into its tokens. */
  predicate IsKept(stripped: seq<string>, l: Line, delimiter: Option<char>)
  {
    l.index < |stripped| && stripped[l.index] != [] && l.tokens == Tokens(stripped[l.index], delimiter)
  }

  /**
   * The kept line `k` is a non-empty line from position `start + k` on, and
   * its tokens are those of that line.
   */
  lemma {:induction false} KeptLineAt(stripped: seq<string>, start: nat, delimiter: Option<char>, k: nat)
    requires k < |KeptLines(stripped, start, delimiter)|
    ensures start + k <= KeptLines(stripped, start, delimiter)[k].index
    ensures IsKept(stripped, KeptLines(stripped, start, delimiter)[k], delimiter)
    decreases |stripped| - start
  {
    if stripped[start] != [] {
      KeptLinesKept(stripped, start, delimiter);
      if k > 0 {
        KeptLineAt(stripped, start + 1, delimiter, k - 1);
        assert KeptLines(stripped, start, delimiter)[k] == KeptLines(stripped, start + 1, delimiter)[k - 1];
      }
    } else {
      KeptLinesSkipped(stripped, start, delimiter);
      KeptLineAt(stripped, start + 1, delimiter, k);
    }
  }

  /** The kept lines are in file order. */
  lemma {:induction false} KeptLinesOrdered(stripped: seq<string>, start: nat, delimiter: Option<char>, k: nat, m: nat)
    requires k < m < |KeptLines(stripped, start, delimiter)|
    ensures KeptLines(stripped, start, delimiter)[k].index < KeptLines(stripped, start, delimiter)[m].index
    decreases |stripped| - start
  {
    if stripped[start] != [] {
      KeptLinesKept(stripped, start, delimiter);
      var r := KeptLines(stripped, start, delimiter);
      var rest := KeptLines(stripped, start + 1, delimiter);
      assert r[m] == rest[m - 1];
      if k == 0 {
        KeptLineAt(stripped, start + 1, delimiter, m - 1);
      } else {
        assert r[k] == rest[k - 1];
        KeptLinesOrdered(stripped, start + 1, delimiter, k - 1, m - 1);
      }
    } else {
      KeptLinesSkipped(stripped, start, delimiter);
      KeptLinesOrdered(stripped, start + 1, delimiter, k, m);
    }
  }

  /** No non-empty line is dropped: `k` is where line `j` is kept. */
  lemma {:induction false} KeptLinesComplete(stripped: seq<string>, start: nat, delimiter: Option<char>, j: nat)
    returns (k: nat)
    requires start <= j < |stripped| && stripped[j] != []
    ensures k < |KeptLines(stripped, start, delimiter)| && KeptLines(stripped, start, delimiter)[k].index == j
    decreases |stripped| - start
  {
    if j == start {
      KeptLinesKept(stripped, start, delimiter);
      k := 0;
    } else {
      var k' := KeptLinesComplete(stripped, start + 1, delimiter, j);
      if stripped[start] != [] {
        KeptLinesKept(stripped, start, delimiter);
        k := k' + 1;
        assert KeptLines(stripped, start, delimiter)[k] == KeptLines(stripped, start + 1, delimiter)[k'];
      } else {
        KeptLinesSkipped(stripped, start, delimiter);
        k := k';
      }
    }
  }

  /** Each line a file reads to is a non-blank line of the file, split after stripping. */
  lemma ReadKeepsOnlyNonBlank(raw: seq<string>, delimiter: Option<char>, k: nat)
    requires k < |KeptLines(Stripped(raw), 0, delimiter)|
    ensures var l := KeptLines(Stripped(raw), 0, delimiter)[k];
      && l.index < |raw| && !IsBlank(raw[l.index])
      && l.tokens == Tokens(Strip(raw[l.index]), delimiter)
  {
    KeptLineAt(Stripped(raw), 0, delimiter, k);
    StripEmptyIffBlank(raw[KeptLines(Stripped(raw), 0, delimiter)[k].index]);
  }

  /** Every non-blank line of a file is among the lines it reads to, under its own index. */
  lemma ReadKeepsEveryNonBlank(raw: seq<string>, delimiter: Option<char>, j: nat)
    requires j < |raw| && !IsBlank(raw[j])
    ensures exists m :: 0 <= m < |KeptLines(Stripped(raw), 0, delimiter)|
                        && KeptLines(Stripped(raw), 0, delimiter)[m].index == j
  {
    StripEmptyIffBlank(raw[j]);
    var m := KeptLinesComplete(Stripped(raw), 0, delimiter, j);
  }

  /**
   * The lines of a text: a delimiter that does not occur in the text is an
   * error; otherwise the non-blank lines, stripped and split.
   */
  function TextToLines(text: string, delimiter: Option<char>): (r: Result<seq<Line>, DelimiterError>)
    ensures r.Failure? <==> delimiter.Some? && delimiter.value !in text
    ensures r.Failure? ==> r.error == DelimiterNotInText(delimiter.value)
  {
    if delimiter.Some? && delimiter.value !in text then Failure(DelimiterNotInText(delimiter.value))
    else Success(KeptLines(Stripped(SplitOn(text, '\n')), 0, delimiter))
  }

  function Counts(lines: seq<Line>): (r: seq<nat>)
    ensures |r| == |lines| && forall k :: 0 <= k < |lines| ==> r[k] == |lines[k].tokens|
  {
    seq(|lines|, k requires 0 <= k < |lines| => |lines[k].tokens|)
  }

  // ---------------------------------------------------------------------------
  // Block size
  // ---------------------------------------------------------------------------

  datatype GlossError = NoDivisor(lineCount: nat) | NoPlausibleRun

  predicate AllEqual(counts: seq<nat>)
  {
    forall i :: 0 < i < |counts| ==> counts[i] == counts[i - 1]
  }

  /** The lengths of the maximal runs of equal neighbouring counts, in order. */
  function RunLengths(counts: seq<nat>): (r: seq<nat>)
    requires |counts| > 0
    ensures |r| > 0 && forall k :: 0 <= k < |r| ==> r[k] > 0
    decreases |counts|
  {
    if |counts| == 1 then [1]
    else
      var r := RunLengths(counts[..|counts| - 1]);
      if counts[|counts| - 1] == counts[|counts| - 2] then r[..|r| - 1] + [r[|r| - 1] + 1]
      else r + [1]
  }

  function Sum(s: seq<nat>): nat
    decreases |s|
  {
    if s == [] then 0 else Sum(s[..|s| - 1]) + s[|s| - 1]
  }

  /** The runs cover the lines exactly. */
  lemma {:induction false} RunLengthsSum(counts: seq<nat>)
    requires |counts| > 0
    ensures Sum(RunLengths(counts)) == |counts|
    decreases |counts|
  {
    if |counts| > 1 {
      var init := counts[..|counts| - 1];
      RunLengthsSum(init);
      var r := RunLengths(init);
      if counts[|counts| - 1] == counts[|counts| - 2] {
        var r' := r[..|r| - 1] + [r[|r| - 1] + 1];
        assert r'[..|r'| - 1] == r[..|r| - 1];
        assert r[..|r| - 1] + [r[|r| - 1]] == r;
        assert Sum(r) == Sum(r[..|r| - 1]) + r[|r| - 1];
      } else {
        assert (r + [1])[..|r|] == r;
      }
    }
  }

  /** There is one run exactly when all counts agree. */
  lemma {:induction false} RunLengthsSingle(counts: seq<nat>)
    requires |counts| > 0
    ensures AllEqual(counts) <==> |RunLengths(counts)| == 1
    decreases |counts|
  {
    if |counts| > 1 {
      var init := counts[..|counts| - 1];
      RunLengthsSingle(init);
      if counts[|counts| - 1] == counts[|counts| - 2] {
        assert AllEqual(counts) <==> AllEqual(init) by {
          if AllEqual(init) {
            forall i | 0 < i < |counts| ensures counts[i] == counts[i - 1] {
              if i < |counts| - 1 { assert counts[i] == init[i] && counts[i - 1] == init[i - 1]; }
            }
          }
        }
      } else {
        assert !AllEqual(counts);
      }
    }
  }

  /** How often `x` occurs among the runs. */
  function Count(runs: seq<nat>, x: nat): nat
  {
    multiset(runs)[x]
  }

  /** `a` comes first when ordering by frequency and then by value, both descending. */
  predicate Beats(runs: seq<nat>, a: nat, b: nat)
  {
    Count(runs, a) > Count(runs, b) || (Count(runs, a) == Count(runs, b) && a >= b)
  }

  /** The most frequent candidate, the larger one on a tie. */
  function ModeOf(runs: seq<nat>, candidates: seq<nat>): (r: nat)
    requires |candidates| > 0
    ensures r in candidates && forall x :: x in candidates ==> Beats(runs, r, x)
    decreases |candidates|
  {
    if |candidates| == 1 then candidates[0]
    else
      var m := ModeOf(runs, candidates[1..]);
      assert forall x :: x in candidates <==> x == candidates[0] || x in candidates[1..];
      if Beats(runs, candidates[0], m) then candidates[0] else m
  }

  /** The largest value not above `bound`, if any. */
  function LargestAtMost(runs: seq<nat>, bound: nat): (r: Option<nat>)
    ensures r.None? <==> forall x :: x in runs ==> x > bound
    ensures r.Some? ==> r.value in runs && r.value <= bound && forall x :: x in runs && x <= bound ==> x <= r.value
    decreases |runs|
  {
    if runs == [] then None
    else
      var rest := LargestAtMost(runs[1..], bound);
      assert forall x :: x in runs <==> x == runs[0] || x in runs[1..];
      if runs[0] > bound then rest
      else if rest.Some? && rest.value > runs[0] then rest
      else
        assert runs[0] in runs;
        Some(runs[0])
  }

  /** The largest value of `runs` outside `excluded`, if any. */
  function LargestNotIn(runs: seq<nat>, excluded: set<nat>): (r: Option<nat>)
    ensures r.None? <==> forall x :: x in runs ==> x in excluded
    ensures r.Some? ==> r.value in runs && r.value !in excluded && forall x :: x in runs && x !in excluded ==> x <= r.value
    decreases |runs|
  {
    if runs == [] then None
    else
      var rest := LargestNotIn(runs[1..], excluded);
      assert forall x :: x in runs <==> x == runs[0] || x in runs[1..];
      if runs[0] in excluded then rest
      else if rest.Some? && rest.value > runs[0] then rest
      else
        assert runs[0] in runs;
        Some(runs[0])
  }

  /** The largest of 2 .. d-1 dividing `n`, if any. */
  function DivisorBelow(n: nat, d: nat): (r: Option<nat>)
    ensures r.Some? ==> 2 <= r.value < d && n % r.value == 0 && forall i :: r.value < i < d ==> n % i != 0
    ensures r.None? <==> forall i :: 2 <= i < d ==> n % i != 0
    decreases d
  {
    if d <= 2 then None
    else if n % (d - 1) == 0 then Some(d - 1)
    else DivisorBelow(n, d - 1)
  }

  /**
   * The block size inferred from the token counts of the lines. When all
   * counts agree it is the largest of 2..5 dividing the number of lines.
   * Otherwise it is the most frequent run length (the larger on a tie); a
   * value above 10 is replaced by the largest run length of at most 10.
   */
  function LinesPerGloss(counts: seq<nat>): Result<nat, GlossError>
  {
    if AllEqual(counts) then
      match DivisorBelow(|counts|, 6)
      case None => Failure(NoDivisor(|counts|))
      case Some(d) => Success(d)
    else
      var runs := RunLengths(counts);
      var m := ModeOf(runs, runs);
      if m <= 10 then Success(m)
      else match LargestAtMost(runs, 10)
        case None => Failure(NoPlausibleRun)
        case Some(x) => Success(x)
  }

  /**
   * An inferred block size is between 2 and 5 and divides the line count when
   * all counts agree; otherwise it is one of the run lengths and at most 10.
   */
  lemma LinesPerGlossBounds(counts: seq<nat>)
    requires LinesPerGloss(counts).Success?
    ensures var n := LinesPerGloss(counts).value;
      && 1 <= n <= 10
      && (AllEqual(counts) ==> 2 <= n <= 5 && |counts| % n == 0)
      && (!AllEqual(counts) ==> n in RunLengths(counts))
  {
    if !AllEqual(counts) {
      var runs := RunLengths(counts);
      var n := LinesPerGloss(counts).value;
      assert n in runs;
      var k :| 0 <= k < |runs| && runs[k] == n;
    }
  }

  /** With agreeing counts a block size exists exactly when one of 2..5 divides the line count. */
  lemma NoDivisorIff(counts: seq<nat>)
    requires AllEqual(counts)
    ensures LinesPerGloss(counts).Failure? <==> forall i :: 2 <= i <= 5 ==> |counts| % i != 0
  {
  }

  /** Builds the comparisons of each count with the one before it. */
  method Equaled(counts: seq<nat>) returns (equaled: seq<bool>)
    ensures |equaled| == |counts|
    ensures |counts| > 0 ==> !equaled[0]
    ensures forall i :: 0 < i < |counts| ==> equaled[i] == (counts[i] == counts[i - 1])
  {
    equaled := [];
    var i := 0;
    while i < |counts|
      invariant 0 <= i <= |counts| && |equaled| == i
      invariant i > 0 ==> !equaled[0]
      invariant forall k :: 0 < k < i ==> equaled[k] == (counts[k] == counts[k - 1])
    {
      equaled := equaled + [if i == 0 then false else counts[i] == counts[i - 1]];
      i := i + 1;
    }
  }

  /** Extending the counts by one either lengthens the last run or opens a new one. */
  lemma RunLengthsSnoc(counts: seq<nat>, i: nat)
    requires 0 < i < |counts|
    ensures var r := RunLengths(counts[..i]);
      RunLengths(counts[..i + 1]) ==
        if counts[i] == counts[i - 1] then r[..|r| - 1] + [r[|r| - 1] + 1] else r + [1]
  {
    assert counts[..i + 1][..i] == counts[..i];
  }

  /** One step of collecting runs: the open run of length `i - ind` grows or is closed. */
  lemma IntervalsStep(counts: seq<nat>, intervals: seq<nat>, ind: nat, i: nat)
    requires 0 <= ind < i < |counts|
    requires intervals + [i - ind] == RunLengths(counts[..i])
    ensures counts[i] == counts[i - 1] ==> intervals + [i + 1 - ind] == RunLengths(counts[..i + 1])
    ensures counts[i] != counts[i - 1] ==> (intervals + [i - ind]) + [1] == RunLengths(counts[..i + 1])
  {
    RunLengthsSnoc(counts, i);
    var r := RunLengths(counts[..i]);
    assert r[..|r| - 1] == intervals;
  }

  /** Collects the run lengths, closing a run at every change of count. */
  method FalseIntervals(counts: seq<nat>, equaled: seq<bool>) returns (intervals: seq<nat>)
    requires |counts| > 0 && |equaled| == |counts|
    requires forall i :: 0 < i < |counts| ==> equaled[i] == (counts[i] == counts[i - 1])
    ensures intervals == RunLengths(counts)
  {
    intervals := [];
    var ind := 0;
    var i := 1;
    assert RunLengths(counts[..1]) == [1];
    while i < |equaled|
      invariant 1 <= i <= |counts| && 0 <= ind < i
      invariant intervals + [i - ind] == RunLengths(counts[..i])
    {
      IntervalsStep(counts, intervals, ind, i);
      if !equaled[i] {
        intervals := intervals + [i - ind];
        ind := i;
      }
      i := i + 1;
    }
    intervals := intervals + [i - ind];
    assert counts[..i] == counts;
  }

  /** Rejecting a value not rejected before leaves fewer values to choose from. */
  lemma RejectShrinks(all: set<nat>, rejected: set<nat>, x: nat)
    requires x in all && x !in rejected
    ensures |all - (rejected + {x})| < |all - rejected|
  {
    assert all - rejected == (all - (rejected + {x})) + {x};
  }

  /**
   * Once every value left exceeds 10 is rejected, the largest value not
   * rejected is the largest run length of at most 10.
   */
  lemma RejectedLargest(runs: seq<nat>, rejected: set<nat>, number: nat)
    requires forall x :: x in rejected ==> x > 10
    requires number in runs && number !in rejected && number <= 10
    requires forall x :: x in runs && x !in rejected ==> x <= number
    ensures LargestAtMost(runs, 10) == Some(number)
  {
  }

  /** Nothing is left once every run length is rejected, and then none is at most 10. */
  lemma RejectedAll(runs: seq<nat>, rejected: set<nat>)
    requires forall x :: x in rejected ==> x > 10
    requires forall x :: x in runs ==> x in rejected
    ensures LargestAtMost(runs, 10).None?
  {
  }

  /** Replaces an implausible block size by the largest run length not yet rejected, until it is at most 10. */
  method Plausible(runs: seq<nat>) returns (r: Result<nat, GlossError>)
    requires |runs| > 0
    ensures r == (var m := ModeOf(runs, runs);
                  if m <= 10 then Success(m)
                  else match LargestAtMost(runs, 10)
                    case None => Failure(NoPlausibleRun)
                    case Some(x) => Success(x))
  {
    var number := ModeOf(runs, runs);
    if number <= 10 {
      return Success(number);
    }
    ghost var all := set x | x in runs;
    var prevMaxes: set<nat> := {number};
    var first := true;
    while number > 10
      invariant number in runs
      invariant forall x :: x in prevMaxes ==> x in runs && x > 10
      invariant first ==> number in prevMaxes && number > 10
      invariant !first ==> number !in prevMaxes && forall x :: x in runs && x !in prevMaxes ==> x <= number
      decreases |all - prevMaxes|, if first then 1 else 0
    {
      if first {
        assert prevMaxes + {number} == prevMaxes;
      } else {
        RejectShrinks(all, prevMaxes, number);
      }
      prevMaxes := prevMaxes + {number};
      var next := LargestNotIn(runs, prevMaxes);
      if next.None? {
        RejectedAll(runs, prevMaxes);
        return Failure(NoPlausibleRun);
      }
      number := next.value;
      first := false;
    }
    RejectedLargest(runs, prevMaxes, number);
    r := Success(number);
  }

  /** The comparisons show no change exactly when all counts agree. */
  lemma EqualedAllEqual(counts: seq<nat>, equaled: seq<bool>)
    requires |equaled| == |counts|
    requires forall i :: 0 < i < |counts| ==> equaled[i] == (counts[i] == counts[i - 1])
    ensures (|equaled| <= 1 || false !in equaled[1..]) <==> AllEqual(counts)
  {
    if |equaled| > 1 && false in equaled[1..] {
      var k :| 0 <= k < |equaled[1..]| && !equaled[1..][k];
      assert !equaled[k + 1];
      assert counts[k + 1] != counts[k];
    }
    if |equaled| > 1 && !AllEqual(counts) {
      var k :| 0 < k < |counts| && counts[k] != counts[k - 1];
      assert !equaled[1..][k - 1];
      assert false in equaled[1..];
    }
    if |equaled| > 1 && false !in equaled[1..] {
      forall i | 0 < i < |counts| ensures counts[i] == counts[i - 1] {
        assert equaled[1..][i - 1] == equaled[i];
      }
    }
  }

  /** Tries 2 to 5 in turn, keeping the last that divides `n`. */
  method LargestDivisor(n: nat) returns (number: Option<nat>)
    ensures number == DivisorBelow(n, 6)
  {
    number := None;
    var i := 2;
    while i < 6
      invariant 2 <= i <= 6
      invariant number == DivisorBelow(n, i)
    {
      if n % i == 0 {
        number := Some(i);
      }
      i := i + 1;
    }
  }

  /** Infers the block size from the token counts of the lines. */
  method CalculateLinesPerGloss(lines: seq<Line>) returns (r: Result<nat, GlossError>)
    ensures r == LinesPerGloss(Counts(lines))
  {
    var counts := Counts(lines);
    var equaled := Equaled(counts);
    EqualedAllEqual(counts, equaled);
    if |equaled| <= 1 || false !in equaled[1..] {
      var number := LargestDivisor(|lines|);
      if number.None? {
        return Failure(NoDivisor(|lines|));
      }
      return Success(number.value);
    }
    var intervals := FalseIntervals(counts, equaled);
    r := Plausible(intervals);
  }

  // ---------------------------------------------------------------------------
  // Schema
  // ---------------------------------------------------------------------------

  /** The delimiters a transcription line is searched for, in order. */
  const IlgDelimiters: seq<char> := ['.', ';', ',']

  function LineName(i: nat): string
  {
    "Line " + NatToString(i)
  }

  function SpellingType(): AnnotationType
  {
    NewType("spelling", None, None, true, false, false)
  }

  /** The schema entry for line `i` of a block, given that line's labels in the first block. */
  function TypeForLine(i: nat, labels: seq<string>, guessType: seq<string> -> Category, sanitize: string -> string)
    : AnnotationType
  {
    var cat := guessType(labels);
    var a := NewType(LineName(i), None, Some("spelling"), false, false, false)
               .(attribute := Some(Attribute(sanitize(LineName(i)), cat)));
    if cat == Tier then a.(delimiter := FirstDelimiter(labels, IlgDelimiters)) else a
  }

  datatype IlgInspectError = BlockSizeError(reason: GlossError) | MissingLine(line: nat)

  /** The lines of a text split on whitespace. */
  function IlgLines(text: string): seq<Line>
  {
    KeptLines(Stripped(SplitOn(text, '\n')), 0, None)
  }

  /** The block size: the one given, or the inferred one. */
  function BlockSize(lines: seq<Line>, number: Option<nat>): Result<nat, GlossError>
  {
    if number.Some? then Success(number.value) else LinesPerGloss(Counts(lines))
  }

  /** Types line `i` from its labels; a transcription gets the first delimiter found in them. */
  method LineType(i: nat, labels: seq<string>, anchor: string, guessType: seq<string> -> Category,
                  sanitize: string -> string)
    returns (a: AnnotationType)
    requires anchor == "spelling"
    ensures a == TypeForLine(i, labels, guessType, sanitize)
  {
    var cat := guessType(labels);
    var name := LineName(i);
    a := NewType(name, None, Some(anchor), false, false, false).(attribute := Some(Attribute(sanitize(name), cat)));
    if cat == Tier {
      var d := FindDelimiter(labels, IlgDelimiters);
      a := a.(delimiter := d);
    }
  }

  /** Builds `n` schema entries from the lines of the first block; fails when the block is longer than the file. */
  method BlockTypes(lines: seq<Line>, n: nat, guessType: seq<string> -> Category, sanitize: string -> string)
    returns (r: Result<seq<AnnotationType>, IlgInspectError>)
    ensures r.Failure? <==> n > 1 && n > |lines|
    ensures r.Failure? ==> r.error.MissingLine?
    ensures r.Success? ==>
      && |r.value| == n
      && (n > 0 ==> r.value[0] == SpellingType())
      && forall i :: 1 <= i < n ==> r.value[i] == TypeForLine(i, lines[i].tokens, guessType, sanitize)
  {
    var types: seq<AnnotationType> := [];
    var i := 0;
    while i < n
      invariant 0 <= i <= n && |types| == i
      invariant i > 0 ==> types[0] == SpellingType()
      invariant i > 1 ==> i - 1 < |lines|
      invariant forall k :: 1 <= k < i ==> k < |lines| && types[k] == TypeForLine(k, lines[k].tokens, guessType, sanitize)
    {
      if i == 0 {
        types := types + [SpellingType()];
      } else {
        if i >= |lines| {
          return Failure(MissingLine(i));
        }
        var a := LineType(i, lines[i].tokens, types[0].name, guessType, sanitize);
        types := types + [a];
      }
      i := i + 1;
    }
    r := Success(types);
  }

  /**
   * The schema of a gloss file: one entry per line of a block, the first the
   * anchor "spelling" and line i an attribute "Line i" under it, typed from
   * line i of the file; it fails when the block size cannot be inferred or
   * the block is longer than the file.
   */
  method InspectDiscourseIlg(text: string, number: Option<nat>, guessType: seq<string> -> Category,
                             sanitize: string -> string)
    returns (r: Result<seq<AnnotationType>, IlgInspectError>)
    ensures var n := BlockSize(IlgLines(text), number);
      r.Failure? <==> n.Failure? || (n.value > 1 && n.value > |IlgLines(text)|)
    ensures BlockSize(IlgLines(text), number).Failure? ==>
      r == Failure(BlockSizeError(BlockSize(IlgLines(text), number).error))
    ensures r.Success? ==>
      && |r.value| == BlockSize(IlgLines(text), number).value
      && (|r.value| > 0 ==> r.value[0] == SpellingType())
      && forall i :: 1 <= i < |r.value| ==> r.value[i] == TypeForLine(i, IlgLines(text)[i].tokens, guessType, sanitize)
  {
    var read := TextToLines(text, None);
    var lines := read.value;
    assert lines == IlgLines(text);
    var n: nat;
    if number.None? {
      var computed := CalculateLinesPerGloss(lines);
      if computed.Failure? {
        return Failure(BlockSizeError(computed.error));
      }
      n := computed.value;
    } else {
      n := number.value;
    }
    r := BlockTypes(lines, n, guessType, sanitize);
  }

  // ---------------------------------------------------------------------------
  // Reading blocks
  // ---------------------------------------------------------------------------

  /** One value of a line: the token as written, or the symbols a transcription token parses into. */
  datatype Cell = Plain(text: string) | Parsed(symbols: seq<string>)

  /** The line of one block read for one schema entry. */
  datatype Row = Row(t: AnnotationType, cells: seq<Cell>)

  datatype IlgError =
    | DelimiterMissing(delimiter: char)
    | NoTypes
    | LinesMismatch(lines: nat, types: nat)
    | WordMismatch(reported: int, previous: seq<Cell>, index: nat, tokens: seq<string>)
    | MissingLevel(name: string)

  function CellValue(c: Cell): Value
  {
    match c
    case Plain(text) => Text(text)
    case Parsed(symbols) => Symbols(symbols)
  }

  /** One unit per character of a plain value. */
  function LetterUnits(text: string): (r: seq<BaseAnnotation>)
    ensures |r| == |text|
  {
    if text == [] then [] else [BaseAnnotation([text[0]], None, None)] + LetterUnits(text[1..])
  }

  /** Unit `k` of a plain value is its character `k`, without times. */
  lemma {:induction false} LetterUnitsAt(text: string, k: nat)
    requires k < |text|
    ensures LetterUnits(text)[k] == BaseAnnotation([text[k]], None, None)
    decreases k
  {
    if k > 0 {
      LetterUnitsAt(text[1..], k - 1);
    }
  }

  /** One unit per parsed symbol. */
  function SymbolUnits(symbols: seq<string>): (r: seq<BaseAnnotation>)
    ensures |r| == |symbols|
  {
    if symbols == [] then [] else [BaseAnnotation(symbols[0], None, None)] + SymbolUnits(symbols[1..])
  }

  /** Unit `k` of a parsed value is its symbol `k`, without times. */
  lemma {:induction false} SymbolUnitsAt(symbols: seq<string>, k: nat)
    requires k < |symbols|
    ensures SymbolUnits(symbols)[k] == BaseAnnotation(symbols[k], None, None)
    decreases k
  {
    if k > 0 {
      SymbolUnitsAt(symbols[1..], k - 1);
    }
  }

  /** The units a value makes on a base level: one per character of plain text, one per parsed symbol. */
  function CellUnits(c: Cell): seq<BaseAnnotation>
  {
    match c
    case Plain(text) => LetterUnits(text)
    case Parsed(symbols) => SymbolUnits(symbols)
  }

  /** The label of a word read from a value. */
  function CellMark(c: Cell): string
  {
    match c
    case Plain(text) => text
    case Parsed(symbols) => Concat(symbols)
  }

  /** The value of one token: parsed when the entry is a delimited transcription, plain text otherwise. */
  function ReadCell(token: string, t: AnnotationType, parse: (string, AnnotationType) -> seq<string>): Cell
  {
    if t.Delimited() then Parsed(parse(token, t)) else Plain(token)
  }

  /** The values of one line, one per token. */
  function ReadCells(tokens: seq<string>, t: AnnotationType, parse: (string, AnnotationType) -> seq<string>)
    : (r: seq<Cell>)
    ensures |r| == |tokens|
  {
    if tokens == [] then [] else [ReadCell(tokens[0], t, parse)] + ReadCells(tokens[1..], t, parse)
  }

  /** Value `k` of a line is read from its token `k`. */
  lemma {:induction false} ReadCellsAt(tokens: seq<string>, t: AnnotationType,
                                       parse: (string, AnnotationType) -> seq<string>, k: nat)
    requires k < |tokens|
    ensures ReadCells(tokens, t, parse)[k] == ReadCell(tokens[k], t, parse)
    decreases k
  {
    if k > 0 {
      ReadCellsAt(tokens[1..], t, parse, k - 1);
    }
  }

  /** The row stored under a name, if any: the first with that name. */
  function FindRow(rows: seq<Row>, name: string): (r: Option<Row>)
    ensures r.Some? ==> r.value in rows && r.value.t.name == name
    decreases |rows|
  {
    if rows == [] then None
    else if rows[0].t.name == name then Some(rows[0])
    else FindRow(rows[1..], name)
  }

  /** A name finds no row exactly when no row carries it. */
  lemma {:induction false} FindRowNone(rows: seq<Row>, name: string)
    ensures FindRow(rows, name).None? <==> forall x :: x in rows ==> x.t.name != name
    decreases |rows|
  {
    if rows != [] {
      FindRowNone(rows[1..], name);
      assert forall x :: x in rows <==> x == rows[0] || x in rows[1..];
    }
  }

  /** Stores a row under its name: an existing name keeps its position and takes the new row. */
  function Put(rows: seq<Row>, row: Row): (r: seq<Row>)
    ensures |r| > 0
    decreases |rows|
  {
    if rows == [] then [row]
    else if rows[0].t.name == row.t.name then [row] + rows[1..]
    else [rows[0]] + Put(rows[1..], row)
  }

  /** After a put the row is found under its name, other names find what they found before, and no other row appears. */
  lemma {:induction false} PutFinds(rows: seq<Row>, row: Row)
    ensures FindRow(Put(rows, row), row.t.name) == Some(row)
    ensures forall n :: n != row.t.name ==> FindRow(Put(rows, row), n) == FindRow(rows, n)
    ensures forall x :: x in Put(rows, row) ==> x in rows || x == row
    decreases |rows|
  {
    if rows != [] && rows[0].t.name != row.t.name {
      PutFinds(rows[1..], row);
      assert Put(rows, row)[1..] == Put(rows[1..], row);
      forall x | x in Put(rows, row) ensures x in rows || x == row {
        if x != rows[0] {
          assert x in Put(rows[1..], row);
        }
      }
    }
  }

  /** All rows hold the same number of values. */
  predicate Uniform(rows: seq<Row>)
  {
    forall x :: x in rows ==> |x.cells| == |rows[0].cells|
  }

  /**
   * Reads one block from entry `j` on: entries named "ignore" are skipped; a
   * line whose token count differs from the last stored row's is an error
   * that reports the line before it; otherwise the line is stored under its
   * entry's name.
   */
  function ReadBlockFrom(block: seq<Line>, types: seq<AnnotationType>, parse: (string, AnnotationType) -> seq<string>,
                         j: nat, rows: seq<Row>)
    : Result<seq<Row>, IlgError>
    requires |block| == |types| && j <= |types|
    decreases |types| - j
  {
    if j == |types| then Success(rows)
    else if types[j].name == "ignore" then ReadBlockFrom(block, types, parse, j + 1, rows)
    else
      var l := block[j];
      if |rows| > 0 && |rows[|rows| - 1].cells| != |l.tokens| then
        Failure(WordMismatch(l.index as int - 1, rows[|rows| - 1].cells, l.index, l.tokens))
      else ReadBlockFrom(block, types, parse, j + 1, Put(rows, Row(types[j], ReadCells(l.tokens, types[j], parse))))
  }

  /** Entry `j` of the schema is read, not ignored. */
  predicate Read(types: seq<AnnotationType>, j: int)
  {
    0 <= j < |types| && types[j].name != "ignore"
  }

  /** The token counts of the lines read from entry `j` on agree with each other and with `count`. */
  ghost predicate AgreeFrom(block: seq<Line>, types: seq<AnnotationType>, j: nat, count: Option<nat>)
    requires |block| == |types|
  {
    && (forall j1, j2 :: j <= j1 && j <= j2 && Read(types, j1) && Read(types, j2) ==>
          |block[j1].tokens| == |block[j2].tokens|)
    && (count.Some? ==> forall j1 :: j <= j1 && Read(types, j1) ==> |block[j1].tokens| == count.value)
  }

  /** Storing a row as long as the others keeps the rows uniform. */
  lemma PutUniform(rows: seq<Row>, row: Row)
    requires Uniform(rows)
    requires rows != [] ==> |rows[0].cells| == |row.cells|
    ensures Uniform(Put(rows, row)) && |Put(rows, row)[0].cells| == |row.cells|
  {
    var rows' := Put(rows, row);
    PutFinds(rows, row);
    assert rows != [] ==> rows[0] in rows;
    assert row in rows' by {
      assert FindRow(rows', row.t.name) == Some(row);
    }
    assert rows'[0] in rows';
  }

  /** A line read at entry `j` joins the agreement of the lines after it with its own count. */
  lemma AgreeStep(block: seq<Line>, types: seq<AnnotationType>, j: nat, count: Option<nat>)
    requires |block| == |types| && Read(types, j)
    requires count.Some? ==> count.value == |block[j].tokens|
    ensures AgreeFrom(block, types, j, count) <==> AgreeFrom(block, types, j + 1, Some(|block[j].tokens|))
  {
  }

  /** A line whose count differs from uniform rows breaks the agreement. */
  lemma DisagreeStep(block: seq<Line>, types: seq<AnnotationType>, j: nat, count: nat)
    requires |block| == |types| && Read(types, j)
    requires count != |block[j].tokens|
    ensures !AgreeFrom(block, types, j, Some(count))
  {
  }

  /** An ignored entry takes no part in the agreement. */
  lemma AgreeSkip(block: seq<Line>, types: seq<AnnotationType>, j: nat, count: Option<nat>)
    requires |block| == |types| && j < |types| && !Read(types, j)
    ensures AgreeFrom(block, types, j, count) <==> AgreeFrom(block, types, j + 1, count)
  {
  }

  /**
   * Reading from entry `j` on with uniform rows so far succeeds exactly when
   * the remaining lines agree with each other and with the rows.
   */
  lemma {:induction false} ReadBlockAgrees(block: seq<Line>, types: seq<AnnotationType>,
                                           parse: (string, AnnotationType) -> seq<string>, j: nat, rows: seq<Row>)
    requires |block| == |types| && j <= |types|
    requires Uniform(rows)
    ensures ReadBlockFrom(block, types, parse, j, rows).Success? <==>
      AgreeFrom(block, types, j, if rows == [] then None else Some(|rows[0].cells|))
    decreases |types| - j
  {
    if j < |types| {
      if types[j].name == "ignore" {
        ReadBlockAgrees(block, types, parse, j + 1, rows);
        AgreeSkip(block, types, j, if rows == [] then None else Some(|rows[0].cells|));
      } else {
        var l := block[j];
        assert rows != [] ==> rows[|rows| - 1] in rows && rows[0] in rows;
        if |rows| > 0 && |rows[|rows| - 1].cells| != |l.tokens| {
          DisagreeStep(block, types, j, |rows[0].cells|);
        } else {
          var row := Row(types[j], ReadCells(l.tokens, types[j], parse));
          PutUniform(rows, row);
          ReadBlockAgrees(block, types, parse, j + 1, Put(rows, row));
          AgreeStep(block, types, j, if rows == [] then None else Some(|rows[0].cells|));
        }
      }
    }
  }

  /** The rows of a block read from entry `j` on are uniform. */
  lemma {:induction false} ReadBlockKeepsUniform(block: seq<Line>, types: seq<AnnotationType>,
                                                 parse: (string, AnnotationType) -> seq<string>, j: nat, rows: seq<Row>)
    requires |block| == |types| && j <= |types|
    requires Uniform(rows)
    requires ReadBlockFrom(block, types, parse, j, rows).Success?
    ensures Uniform(ReadBlockFrom(block, types, parse, j, rows).value)
    decreases |types| - j
  {
    if j < |types| {
      if types[j].name == "ignore" {
        ReadBlockKeepsUniform(block, types, parse, j + 1, rows);
      } else {
        var row := Row(types[j], ReadCells(block[j].tokens, types[j], parse));
        assert rows != [] ==> rows[|rows| - 1] in rows && rows[0] in rows;
        PutUniform(rows, row);
        ReadBlockKeepsUniform(block, types, parse, j + 1, Put(rows, row));
      }
    }
  }

  /** The rows of a block read from entry `j` on hold every name stored before or read since. */
  lemma {:induction false} ReadBlockKeepsNames(block: seq<Line>, types: seq<AnnotationType>,
                                               parse: (string, AnnotationType) -> seq<string>, j: nat, rows: seq<Row>)
    requires |block| == |types| && j <= |types|
    requires ReadBlockFrom(block, types, parse, j, rows).Success?
    ensures forall n :: FindRow(rows, n).Some? ==> FindRow(ReadBlockFrom(block, types, parse, j, rows).value, n).Some?
    ensures forall j1 :: j <= j1 && Read(types, j1) ==>
      FindRow(ReadBlockFrom(block, types, parse, j, rows).value, types[j1].name).Some?
    decreases |types| - j
  {
    if j < |types| {
      if types[j].name == "ignore" {
        ReadBlockKeepsNames(block, types, parse, j + 1, rows);
      } else {
        var row := Row(types[j], ReadCells(block[j].tokens, types[j], parse));
        var rows' := Put(rows, row);
        PutFinds(rows, row);
        assert ReadBlockFrom(block, types, parse, j, rows) == ReadBlockFrom(block, types, parse, j + 1, rows');
        ReadBlockKeepsNames(block, types, parse, j + 1, rows');
        forall n | FindRow(rows, n).Some? ensures FindRow(rows', n).Some? {
          if n != row.t.name {
            assert FindRow(rows', n) == FindRow(rows, n);
          }
        }
      }
    }
  }

  /** A block read holds rows of equal length. */
  lemma ReadBlockUniform(block: seq<Line>, types: seq<AnnotationType>, parse: (string, AnnotationType) -> seq<string>)
    requires |block| == |types|
    requires ReadBlockFrom(block, types, parse, 0, []).Success?
    ensures Uniform(ReadBlockFrom(block, types, parse, 0, []).value)
  {
    ReadBlockKeepsUniform(block, types, parse, 0, []);
  }

  /** A block is read exactly when all its lines that are read hold the same number of tokens. */
  lemma ReadBlockSpec(block: seq<Line>, types: seq<AnnotationType>, parse: (string, AnnotationType) -> seq<string>)
    requires |block| == |types|
    ensures ReadBlockFrom(block, types, parse, 0, []).Success? <==>
      forall j1, j2 :: Read(types, j1) && Read(types, j2) ==> |block[j1].tokens| == |block[j2].tokens|
    ensures ReadBlockFrom(block, types, parse, 0, []).Success? ==>
      && Uniform(ReadBlockFrom(block, types, parse, 0, []).value)
      && forall j1 :: Read(types, j1) ==> FindRow(ReadBlockFrom(block, types, parse, 0, []).value, types[j1].name).Some?
  {
    ReadBlockAgrees(block, types, parse, 0, []);
    if ReadBlockFrom(block, types, parse, 0, []).Success? {
      ReadBlockKeepsUniform(block, types, parse, 0, []);
      ReadBlockKeepsNames(block, types, parse, 0, []);
    }
  }

  // ---------------------------------------------------------------------------
  // Planning the words of a file
  // ---------------------------------------------------------------------------

  /** Every row has a value at position `i`. */
  predicate HasColumn(rows: seq<Row>, i: nat)
  {
    forall x :: x in rows ==> i < |x.cells|
  }

  /** The units of word `i` on each named base level, in name order; the first name without a row is an error. */
  function BaseUnits(rows: seq<Row>, names: seq<string>, i: nat): Result<map<string, seq<BaseAnnotation>>, IlgError>
    requires HasColumn(rows, i)
    decreases |names|
  {
    if names == [] then Success(map[])
    else match BaseUnits(rows, names[..|names| - 1], i)
      case Failure(e) => Failure(e)
      case Success(m) =>
        match FindRow(rows, names[|names| - 1])
        case None => Failure(MissingLevel(names[|names| - 1]))
        case Some(x) => Success(m[names[|names| - 1] := CellUnits(x.cells[i])])
  }

  /**
   * When every base level has a row, the units of a word are found and hold,
   * for each base level, the units of its row's value at `i`.
   */
  lemma {:induction false} BaseUnitsFound(rows: seq<Row>, names: seq<string>, i: nat)
    requires HasColumn(rows, i)
    requires forall n :: n in names ==> FindRow(rows, n).Some?
    ensures BaseUnits(rows, names, i).Success?
    ensures forall n :: n in BaseUnits(rows, names, i).value <==> n in names
    ensures forall n :: n in names ==> BaseUnits(rows, names, i).value[n] == CellUnits(FindRow(rows, n).value.cells[i])
    decreases |names|
  {
    if names != [] {
      var init := names[..|names| - 1];
      var last := names[|names| - 1];
      assert forall n :: n in names <==> n in init || n == last;
      BaseUnitsFound(rows, init, i);
    }
  }

  /** Otherwise the error names the first base level without a row. */
  lemma {:induction false} BaseUnitsMissing(rows: seq<Row>, names: seq<string>, i: nat, k: nat)
    requires HasColumn(rows, i)
    requires k < |names| && FindRow(rows, names[k]).None?
    requires forall k' :: 0 <= k' < k ==> FindRow(rows, names[k']).Some?
    ensures BaseUnits(rows, names, i) == Failure(MissingLevel(names[k]))
    decreases |names|
  {
    var init := names[..|names| - 1];
    if k == |names| - 1 {
      assert forall n :: n in init ==> FindRow(rows, n).Some?;
      BaseUnitsFound(rows, init, i);
    } else {
      assert init[k] == names[k];
      BaseUnitsMissing(rows, init, i, k);
    }
  }

  /** Which rows give a word its attributes: token attributes, or attributes of neither a base nor a word level. */
  datatype Columns = TokenAttributes | OtherAttributes

  predicate Keeps(keep: Columns, t: AnnotationType)
  {
    match keep
    case TokenAttributes => t.token
    case OtherAttributes => !t.base && !t.anchor
  }

  /** The values at `i` of the rows whose entry `keep` selects, by name; a later row wins. */
  function ColumnMap(rows: seq<Row>, i: nat, keep: Columns): map<string, Value>
    requires HasColumn(rows, i)
    decreases |rows|
  {
    if rows == [] then map[]
    else
      var m := ColumnMap(rows[..|rows| - 1], i, keep);
      var x := rows[|rows| - 1];
      if Keeps(keep, x.t) then m[x.t.name := CellValue(x.cells[i])] else m
  }

  /** The map holds exactly the selected rows' names, each with the value at `i` of a selected row of that name. */
  lemma {:induction false} ColumnMapSpec(rows: seq<Row>, i: nat, keep: Columns)
    requires HasColumn(rows, i)
    ensures forall n :: n in ColumnMap(rows, i, keep) <==> exists x :: x in rows && Keeps(keep, x.t) && x.t.name == n
    ensures forall n :: n in ColumnMap(rows, i, keep) ==>
      exists x :: x in rows && Keeps(keep, x.t) && x.t.name == n && ColumnMap(rows, i, keep)[n] == CellValue(x.cells[i])
    decreases |rows|
  {
    if rows != [] {
      var init := rows[..|rows| - 1];
      var x := rows[|rows| - 1];
      assert forall y :: y in rows <==> y in init || y == x;
      ColumnMapSpec(init, i, keep);
    }
  }

  /** The token attributes of word `i`: the values of the rows whose entry is a token attribute. */
  function TokenColumns(rows: seq<Row>, i: nat): map<string, Value>
    requires HasColumn(rows, i)
  {
    ColumnMap(rows, i, TokenAttributes)
  }

  /** The type attributes of word `i`: the values of the rows whose entry is neither a base nor a word level. */
  function AdditionalColumns(rows: seq<Row>, i: nat): map<string, Value>
    requires HasColumn(rows, i)
  {
    ColumnMap(rows, i, OtherAttributes)
  }

  /** Word `i` of word level `name`, whose values are the row `word`. */
  function PlanToken(rows: seq<Row>, types: seq<AnnotationType>, name: string, word: Row, i: nat)
    : Result<Planned, IlgError>
    requires HasColumn(rows, i) && i < |word.cells|
  {
    match BaseUnits(rows, BaseLevelNames(types), i)
    case Failure(e) => Failure(e)
    case Success(units) =>
      Success(Planned(name, CellMark(word.cells[i]), units, TokenColumns(rows, i), AdditionalColumns(rows, i)))
  }

  function PlanTokensFrom(rows: seq<Row>, types: seq<AnnotationType>, name: string, word: Row, i: nat, acc: seq<Planned>)
    : Result<seq<Planned>, IlgError>
    requires Uniform(rows) && word in rows
    decreases |word.cells| - i
  {
    if i >= |word.cells| then Success(acc)
    else match PlanToken(rows, types, name, word, i)
      case Failure(e) => Failure(e)
      case Success(p) => PlanTokensFrom(rows, types, name, word, i + 1, acc + [p])
  }

  /** The words of one word level of a block; a word level without a row is an error. */
  function PlanLevel(rows: seq<Row>, types: seq<AnnotationType>, name: string, acc: seq<Planned>)
    : Result<seq<Planned>, IlgError>
    requires Uniform(rows)
  {
    match FindRow(rows, name)
    case None => Failure(MissingLevel(name))
    case Some(word) => PlanTokensFrom(rows, types, name, word, 0, acc)
  }

  /** The words of one block, word level by word level. */
  function PlanLevelsFrom(rows: seq<Row>, types: seq<AnnotationType>, names: seq<string>, k: nat, acc: seq<Planned>)
    : Result<seq<Planned>, IlgError>
    requires Uniform(rows) && k <= |names|
    decreases |names| - k
  {
    if k == |names| then Success(acc)
    else match PlanLevel(rows, types, names[k], acc)
      case Failure(e) => Failure(e)
      case Success(acc') => PlanLevelsFrom(rows, types, names, k + 1, acc')
  }

  lemma {:induction false} MulAtLeast(d: nat, n: nat)
    requires d >= 1
    ensures d * n >= n
    decreases d
  {
    if d > 1 {
      MulAtLeast(d - 1, n);
      assert d * n == (d - 1) * n + n;
    }
  }

  /** Taking `s` away from `n` leaves the remainder by `s` as it was. */
  lemma ModShift(n: nat, s: nat)
    requires 0 < s <= n
    ensures (n - s) % s == n % s
  {
    var q, r := n / s, n % s;
    var q', r' := (n - s) / s, (n - s) % s;
    assert n == q * s + r;
    assert n - s == q' * s + r';
    assert (q - 1 - q') * s == r' - r;
    if q - 1 - q' >= 1 {
      MulAtLeast(q - 1 - q', s);
    } else if q - 1 - q' <= -1 {
      MulAtLeast(q' + 1 - q, s);
    }
  }

  /** The `count` lines from line `index` on make whole blocks of `size` lines. */
  predicate WholeBlocks(count: nat, index: nat, size: nat)
    decreases count - index
  {
    index == count || (0 < size && index + size <= count && WholeBlocks(count, index + size, size))
  }

  /** Whole blocks are exactly the line counts the block size divides. */
  lemma {:induction false} WholeBlocksMod(count: nat, index: nat, size: nat)
    requires size > 0 && index <= count
    ensures WholeBlocks(count, index, size) <==> (count - index) % size == 0
    decreases count - index
  {
    if index + size <= count {
      ModShift(count - index, size);
      WholeBlocksMod(count, index + size, size);
    }
  }

  /** The words of the block starting at line `index`. */
  function PlanBlock(lines: seq<Line>, types: seq<AnnotationType>, parse: (string, AnnotationType) -> seq<string>,
                     index: nat, acc: seq<Planned>)
    : Result<seq<Planned>, IlgError>
    requires index + |types| <= |lines|
  {
    var block := lines[index..index + |types|];
    match ReadBlockFrom(block, types, parse, 0, [])
    case Failure(e) => Failure(e)
    case Success(rows) =>
      ReadBlockUniform(block, types, parse);
      PlanLevelsFrom(rows, types, WordLevelNames(types), 0, acc)
  }

  /** The words of the blocks from line `index` on. */
  function PlanBlocksFrom(lines: seq<Line>, types: seq<AnnotationType>, parse: (string, AnnotationType) -> seq<string>,
                          index: nat, acc: seq<Planned>)
    : Result<seq<Planned>, IlgError>
    requires WholeBlocks(|lines|, index, |types|)
    decreases |lines| - index
  {
    if index == |lines| then Success(acc)
    else
      match PlanBlock(lines, types, parse, index, acc)
      case Failure(e) => Failure(e)
      case Success(acc') => PlanBlocksFrom(lines, types, parse, index + |types|, acc')
  }

  /** One block further on, the remaining lines are still whole blocks. */
  lemma PlanBlocksStep(lines: seq<Line>, types: seq<AnnotationType>, parse: (string, AnnotationType) -> seq<string>,
                       index: nat, acc: seq<Planned>)
    requires index < |lines| && WholeBlocks(|lines|, index, |types|)
    ensures index + |types| <= |lines| && WholeBlocks(|lines|, index + |types|, |types|)
    ensures PlanBlock(lines, types, parse, index, acc).Failure? ==>
      PlanBlocksFrom(lines, types, parse, index, acc) == Failure(PlanBlock(lines, types, parse, index, acc).error)
    ensures PlanBlock(lines, types, parse, index, acc).Success? ==>
      PlanBlocksFrom(lines, types, parse, index, acc) ==
      PlanBlocksFrom(lines, types, parse, index + |types|, PlanBlock(lines, types, parse, index, acc).value)
  {
  }

  /**
   * The words of a gloss file read as lines: no schema, or a line count that
   * is not a multiple of the block size, is an error; otherwise the words of
   * its blocks in order.
   */
  function IlgPlan(lines: seq<Line>, types: seq<AnnotationType>, parse: (string, AnnotationType) -> seq<string>)
    : Result<seq<Planned>, IlgError>
  {
    if |types| == 0 then Failure(NoTypes)
    else if |lines| % |types| != 0 then Failure(LinesMismatch(|lines|, |types|))
    else
      WholeBlocksMod(|lines|, 0, |types|);
      PlanBlocksFrom(lines, types, parse, 0, [])
  }

  /** The words of a gloss file, from its text. */
  function IlgTextPlan(text: string, delimiter: Option<char>, types: seq<AnnotationType>,
                       parse: (string, AnnotationType) -> seq<string>)
    : Result<seq<Planned>, IlgError>
  {
    match TextToLines(text, delimiter)
    case Failure(DelimiterNotInText(c)) => Failure(DelimiterMissing(c))
    case Success(lines) => IlgPlan(lines, types, parse)
  }

  // ---------------------------------------------------------------------------
  // What a plan holds
  // ---------------------------------------------------------------------------

  /** Every base level of the schema has a row. */
  predicate BaseRowsFound(rows: seq<Row>, types: seq<AnnotationType>)
  {
    forall n :: n in BaseLevelNames(types) ==> FindRow(rows, n).Some?
  }

  /** No word or base level of the schema is named "ignore", so each of them is read. */
  predicate LevelsNotIgnored(types: seq<AnnotationType>)
  {
    "ignore" !in WordLevelNames(types) && "ignore" !in BaseLevelNames(types)
  }

  /** `e` reports one of `names` that has no row. */
  predicate NoRowFor(e: IlgError, rows: seq<Row>, names: seq<string>)
  {
    e.MissingLevel? && e.name in names && FindRow(rows, e.name).None?
  }

  /** All lines of a block that are read hold the same number of tokens. */
  ghost predicate Agrees(block: seq<Line>, types: seq<AnnotationType>)
    requires |block| == |types|
  {
    forall j1, j2 :: Read(types, j1) && Read(types, j2) ==> |block[j1].tokens| == |block[j2].tokens|
  }

  /** Every block from line `index` on agrees. */
  ghost predicate BlocksAgree(lines: seq<Line>, types: seq<AnnotationType>, index: nat)
    decreases |lines| - index
  {
    || |types| == 0
    || |lines| < index + |types|
    || (Agrees(lines[index..index + |types|], types) && BlocksAgree(lines, types, index + |types|))
  }

  /**
   * `p` is word `i` of word level `name`, whose row is `word`: it is labelled
   * by value `i` of that row, holds on each base level the units of that
   * level's value `i`, and takes its token and type attributes from the
   * values `i` of the rows that give them.
   */
  ghost predicate WordPlanned(rows: seq<Row>, types: seq<AnnotationType>, name: string, word: Row, i: nat, p: Planned)
  {
    && i < |word.cells| && HasColumn(rows, i)
    && p.level == name
    && p.mark == CellMark(word.cells[i])
    && (forall n :: n in p.units <==> n in BaseLevelNames(types))
    && (forall n :: n in BaseLevelNames(types) ==>
          && FindRow(rows, n).Some? && n in p.units
          && p.units[n] == CellUnits(FindRow(rows, n).value.cells[i]))
    && p.token == TokenColumns(rows, i)
    && p.additional == AdditionalColumns(rows, i)
  }

  /** `ps` holds one word per value of `word`, the row of word level `name`, in order. */
  ghost predicate RowPlanned(rows: seq<Row>, types: seq<AnnotationType>, name: string, word: Row, ps: seq<Planned>)
  {
    |ps| == |word.cells| && forall i :: 0 <= i < |ps| ==> WordPlanned(rows, types, name, word, i, ps[i])
  }

  /** The number of words the word levels `names[k..]` give: one per value of each level's row. */
  function LevelsSize(rows: seq<Row>, names: seq<string>, k: nat): nat
    decreases |names| - k
  {
    if k >= |names| then 0
    else (match FindRow(rows, names[k]) case None => 0 case Some(x) => |x.cells|) + LevelsSize(rows, names, k + 1)
  }

  /** `ps` holds the words of the word levels `names[k..]`, level after level, each row's words in order. */
  ghost predicate LevelsPlanned(rows: seq<Row>, types: seq<AnnotationType>, names: seq<string>, k: nat, ps: seq<Planned>)
    decreases |names| - k
  {
    if k >= |names| then ps == []
    else
      && FindRow(rows, names[k]).Some?
      && var word := FindRow(rows, names[k]).value;
         && |word.cells| <= |ps|
         && RowPlanned(rows, types, names[k], word, ps[..|word.cells|])
         && LevelsPlanned(rows, types, names, k + 1, ps[|word.cells|..])
  }

  /**
   * `ps` holds the words of the blocks from line `index` on, block after
   * block: each block is read, and gives the words of its word levels in
   * schema order.
   */
  ghost predicate BlocksPlanned(lines: seq<Line>, types: seq<AnnotationType>, parse: (string, AnnotationType) -> seq<string>,
                          index: nat, ps: seq<Planned>)
    decreases |lines| - index
  {
    if |types| == 0 || |lines| < index + |types| then ps == []
    else
      var read := ReadBlockFrom(lines[index..index + |types|], types, parse, 0, []);
      && read.Success?
      && var m := LevelsSize(read.value, WordLevelNames(types), 0);
         && m <= |ps|
         && LevelsPlanned(read.value, types, WordLevelNames(types), 0, ps[..m])
         && BlocksPlanned(lines, types, parse, index + |types|, ps[m..])
  }

  /** Splitting after a prefix `mid` of `ps` at `a` splits `mid` there too, and leaves what follows `mid`. */
  lemma SliceTwice<T>(ps: seq<T>, mid: seq<T>, a: nat)
    requires a <= |mid| <= |ps| && ps[..|mid|] == mid
    ensures ps[..a] == mid[..a]
    ensures ps[a..][..|mid| - a] == mid[a..]
    ensures ps[a..][|mid| - a..] == ps[|mid|..]
    ensures ps[a..] == mid[a..] + ps[|mid|..]
  {
    assert forall k :: 0 <= k < a ==> ps[k] == mid[k];
  }

  /** The units of a word are found exactly when every base level has a row; otherwise one without a row is reported. */
  lemma {:induction false} BaseUnitsSucceeds(rows: seq<Row>, names: seq<string>, i: nat)
    requires HasColumn(rows, i)
    ensures BaseUnits(rows, names, i).Success? <==> forall n :: n in names ==> FindRow(rows, n).Some?
    ensures BaseUnits(rows, names, i).Failure? ==> NoRowFor(BaseUnits(rows, names, i).error, rows, names)
    decreases |names|
  {
    if names != [] {
      var init, last := names[..|names| - 1], names[|names| - 1];
      BaseUnitsSucceeds(rows, init, i);
      assert forall n :: n in names <==> n in init || n == last;
      if BaseUnits(rows, init, i).Failure? {
        assert BaseUnits(rows, names, i) == BaseUnits(rows, init, i);
      } else if FindRow(rows, last).None? {
        assert BaseUnits(rows, names, i) == Failure(MissingLevel(last));
        assert last in names;
      }
    }
  }

  /** Word `i` is planned exactly when every base level has a row, and is then the word `i` of its row. */
  lemma PlanTokenShape(rows: seq<Row>, types: seq<AnnotationType>, name: string, word: Row, i: nat)
    requires HasColumn(rows, i) && i < |word.cells|
    ensures PlanToken(rows, types, name, word, i).Success? <==> BaseRowsFound(rows, types)
    ensures PlanToken(rows, types, name, word, i).Failure? ==>
      NoRowFor(PlanToken(rows, types, name, word, i).error, rows, BaseLevelNames(types))
    ensures PlanToken(rows, types, name, word, i).Success? ==>
      WordPlanned(rows, types, name, word, i, PlanToken(rows, types, name, word, i).value)
  {
    BaseUnitsSucceeds(rows, BaseLevelNames(types), i);
    if BaseRowsFound(rows, types) {
      BaseUnitsFound(rows, BaseLevelNames(types), i);
    }
  }

  /** The words of a row from value `i` on follow `acc`, one per value, in order. */
  lemma {:induction false} PlanTokensShape(rows: seq<Row>, types: seq<AnnotationType>, name: string, word: Row,
                                           i: nat, acc: seq<Planned>)
    requires Uniform(rows) && word in rows && i <= |word.cells|
    ensures PlanTokensFrom(rows, types, name, word, i, acc).Success? <==> i == |word.cells| || BaseRowsFound(rows, types)
    ensures PlanTokensFrom(rows, types, name, word, i, acc).Failure? ==>
      NoRowFor(PlanTokensFrom(rows, types, name, word, i, acc).error, rows, BaseLevelNames(types))
    ensures PlanTokensFrom(rows, types, name, word, i, acc).Success? ==>
      var ps := PlanTokensFrom(rows, types, name, word, i, acc).value;
      && |ps| == |acc| + |word.cells| - i && ps[..|acc|] == acc
      && forall k :: |acc| <= k < |ps| ==> WordPlanned(rows, types, name, word, i + k - |acc|, ps[k])
    decreases |word.cells| - i
  {
    if i < |word.cells| {
      PlanTokensStep(rows, types, name, word, i, acc);
      PlanTokenShape(rows, types, name, word, i);
      if BaseRowsFound(rows, types) {
        var p := PlanToken(rows, types, name, word, i).value;
        PlanTokensShape(rows, types, name, word, i + 1, acc + [p]);
        var ps := PlanTokensFrom(rows, types, name, word, i + 1, acc + [p]).value;
        assert ps[..|acc|] == (acc + [p])[..|acc|] == acc;
        forall k | |acc| <= k < |ps| ensures WordPlanned(rows, types, name, word, i + k - |acc|, ps[k]) {
          if k == |acc| {
            assert ps[k] == (acc + [p])[k] == p;
          }
        }
      }
    }
  }

  /** The words of one word level's row follow `acc`, one per value, in order. */
  lemma PlanRowShape(rows: seq<Row>, types: seq<AnnotationType>, name: string, word: Row, acc: seq<Planned>)
    requires Uniform(rows) && word in rows
    ensures PlanTokensFrom(rows, types, name, word, 0, acc).Success? <==> |word.cells| == 0 || BaseRowsFound(rows, types)
    ensures PlanTokensFrom(rows, types, name, word, 0, acc).Failure? ==>
      NoRowFor(PlanTokensFrom(rows, types, name, word, 0, acc).error, rows, BaseLevelNames(types))
    ensures PlanTokensFrom(rows, types, name, word, 0, acc).Success? ==>
      var ps := PlanTokensFrom(rows, types, name, word, 0, acc).value;
      |acc| <= |ps| && ps[..|acc|] == acc && RowPlanned(rows, types, name, word, ps[|acc|..])
  {
    PlanTokensShape(rows, types, name, word, 0, acc);
    if PlanTokensFrom(rows, types, name, word, 0, acc).Success? {
      var ps := PlanTokensFrom(rows, types, name, word, 0, acc).value;
      forall i | 0 <= i < |ps| - |acc| ensures WordPlanned(rows, types, name, word, i, ps[|acc|..][i]) {
        assert ps[|acc|..][i] == ps[|acc| + i];
      }
    }
  }

  /**
   * The words of the word levels `names[k..]` follow `acc`, level after
   * level; they are planned when every word and base level has a row, and a
   * failure reports one that has none.
   */
  lemma {:induction false} PlanLevelsShape(rows: seq<Row>, types: seq<AnnotationType>, names: seq<string>, k: nat,
                                           acc: seq<Planned>)
    requires Uniform(rows) && k <= |names|
    ensures (forall n :: n in names ==> FindRow(rows, n).Some?) && BaseRowsFound(rows, types) ==>
      PlanLevelsFrom(rows, types, names, k, acc).Success?
    ensures PlanLevelsFrom(rows, types, names, k, acc).Failure? ==>
      NoRowFor(PlanLevelsFrom(rows, types, names, k, acc).error, rows, names + BaseLevelNames(types))
    ensures PlanLevelsFrom(rows, types, names, k, acc).Success? ==>
      var ps := PlanLevelsFrom(rows, types, names, k, acc).value;
      && |ps| == |acc| + LevelsSize(rows, names, k) && ps[..|acc|] == acc
      && LevelsPlanned(rows, types, names, k, ps[|acc|..])
    decreases |names| - k
  {
    if k < |names| {
      var found := FindRow(rows, names[k]);
      if found.Some? {
        var word := found.value;
        PlanRowShape(rows, types, names[k], word, acc);
        var r := PlanTokensFrom(rows, types, names[k], word, 0, acc);
        if r.Success? {
          PlanLevelsShape(rows, types, names, k + 1, r.value);
          if PlanLevelsFrom(rows, types, names, k, acc).Success? {
            var ps := PlanLevelsFrom(rows, types, names, k, acc).value;
            SliceTwice(ps, r.value, |acc|);
          }
        }
      }
    }
  }

  /** A word or base level that is not named "ignore" has a row in any block read. */
  lemma NamedLevelHasRow(rows: seq<Row>, types: seq<AnnotationType>, n: string)
    requires forall j :: Read(types, j) ==> FindRow(rows, types[j].name).Some?
    requires n in WordLevelNames(types) + BaseLevelNames(types) && n != "ignore"
    ensures FindRow(rows, n).Some?
  {
    var t :| t in types && t.name == n;
    var j :| 0 <= j < |types| && types[j] == t;
    assert Read(types, j);
  }

  /** Reading a block fails only with a word mismatch. */
  lemma {:induction false} ReadBlockFails(block: seq<Line>, types: seq<AnnotationType>,
                                          parse: (string, AnnotationType) -> seq<string>, j: nat, rows: seq<Row>)
    requires |block| == |types| && j <= |types|
    ensures ReadBlockFrom(block, types, parse, j, rows).Failure? ==> ReadBlockFrom(block, types, parse, j, rows).error.WordMismatch?
    decreases |types| - j
  {
    if j < |types| {
      if types[j].name == "ignore" {
        ReadBlockFails(block, types, parse, j + 1, rows);
      } else {
        ReadBlockFails(block, types, parse, j + 1, Put(rows, Row(types[j], ReadCells(block[j].tokens, types[j], parse))));
      }
    }
  }

  /** The words of the block at line `index` follow `acc`: the block's lines agree and its word levels give their words in schema order. */
  lemma PlanBlockPlanned(lines: seq<Line>, types: seq<AnnotationType>, parse: (string, AnnotationType) -> seq<string>,
                         index: nat, acc: seq<Planned>)
    requires index + |types| <= |lines|
    requires PlanBlock(lines, types, parse, index, acc).Success?
    ensures var block := lines[index..index + |types|];
      && Agrees(block, types) && ReadBlockFrom(block, types, parse, 0, []).Success?
      && var rows := ReadBlockFrom(block, types, parse, 0, []).value;
         var ps := PlanBlock(lines, types, parse, index, acc).value;
         && |ps| == |acc| + LevelsSize(rows, WordLevelNames(types), 0) && ps[..|acc|] == acc
         && LevelsPlanned(rows, types, WordLevelNames(types), 0, ps[|acc|..])
  {
    var block := lines[index..index + |types|];
    ReadBlockSpec(block, types, parse);
    PlanLevelsShape(ReadBlockFrom(block, types, parse, 0, []).value, types, WordLevelNames(types), 0, acc);
  }

  /**
   * A block fails with a word mismatch of lines that disagree, or for a
   * level named "ignore"; lines that agree are planned when no level is named
   * "ignore".
   */
  lemma PlanBlockOutcome(lines: seq<Line>, types: seq<AnnotationType>, parse: (string, AnnotationType) -> seq<string>,
                         index: nat, acc: seq<Planned>)
    requires index + |types| <= |lines|
    ensures PlanBlock(lines, types, parse, index, acc).Failure? ==>
      var e := PlanBlock(lines, types, parse, index, acc).error;
      (e.WordMismatch? && !Agrees(lines[index..index + |types|], types)) || e == MissingLevel("ignore")
    ensures Agrees(lines[index..index + |types|], types) && LevelsNotIgnored(types) ==>
      PlanBlock(lines, types, parse, index, acc).Success?
  {
    var block := lines[index..index + |types|];
    ReadBlockSpec(block, types, parse);
    ReadBlockFails(block, types, parse, 0, []);
    var read := ReadBlockFrom(block, types, parse, 0, []);
    if read.Success? {
      var rows := read.value;
      var names := WordLevelNames(types);
      PlanLevelsShape(rows, types, names, 0, acc);
      var plan := PlanLevelsFrom(rows, types, names, 0, acc);
      if plan.Failure? && plan.error.name != "ignore" {
        NamedLevelHasRow(rows, types, plan.error.name);
      }
      if LevelsNotIgnored(types) {
        forall n | n in names + BaseLevelNames(types) ensures FindRow(rows, n).Some? {
          NamedLevelHasRow(rows, types, n);
        }
      }
    }
  }

  /**
   * The words of the block at line `index` after `acc`, then the words of
   * the blocks after it, are the words of the blocks from that block on
   * after `acc`.
   */
  lemma BlocksPlannedStep(lines: seq<Line>, types: seq<AnnotationType>, parse: (string, AnnotationType) -> seq<string>,
                          index: nat, acc: seq<Planned>, ps: seq<Planned>)
    requires 0 < |types| && index + |types| <= |lines|
    requires PlanBlock(lines, types, parse, index, acc).Success?
    requires var b := PlanBlock(lines, types, parse, index, acc).value;
      && |b| <= |ps| && ps[..|b|] == b
      && BlocksAgree(lines, types, index + |types|) && BlocksPlanned(lines, types, parse, index + |types|, ps[|b|..])
    ensures |acc| <= |ps| && ps[..|acc|] == acc
    ensures BlocksAgree(lines, types, index) && BlocksPlanned(lines, types, parse, index, ps[|acc|..])
  {
    PlanBlockPlanned(lines, types, parse, index, acc);
    var b := PlanBlock(lines, types, parse, index, acc).value;
    var rows := ReadBlockFrom(lines[index..index + |types|], types, parse, 0, []).value;
    SliceTwice(ps, b, |acc|);
    BlocksPlannedCons(lines, types, parse, index, rows, b[|acc|..], ps[|b|..], ps[|acc|..]);
  }

  /** A block's words, then the words of the blocks after it, are the words of the blocks from that block on. */
  lemma BlocksPlannedCons(lines: seq<Line>, types: seq<AnnotationType>, parse: (string, AnnotationType) -> seq<string>,
                          index: nat, rows: seq<Row>, block: seq<Planned>, rest: seq<Planned>, ps: seq<Planned>)
    requires 0 < |types| && index + |types| <= |lines|
    requires ReadBlockFrom(lines[index..index + |types|], types, parse, 0, []) == Success(rows)
    requires |block| == LevelsSize(rows, WordLevelNames(types), 0)
    requires LevelsPlanned(rows, types, WordLevelNames(types), 0, block)
    requires BlocksPlanned(lines, types, parse, index + |types|, rest)
    requires ps == block + rest
    ensures BlocksPlanned(lines, types, parse, index, ps)
  {
    assert ps[..|block|] == block && ps[|block|..] == rest;
  }

  /** The words of the blocks from line `index` on follow `acc`, block after block, and the blocks agree. */
  lemma {:induction false} PlanBlocksPlanned(lines: seq<Line>, types: seq<AnnotationType>,
                                             parse: (string, AnnotationType) -> seq<string>, index: nat, acc: seq<Planned>)
    requires WholeBlocks(|lines|, index, |types|)
    requires PlanBlocksFrom(lines, types, parse, index, acc).Success?
    ensures var ps := PlanBlocksFrom(lines, types, parse, index, acc).value;
      && |acc| <= |ps| && ps[..|acc|] == acc
      && BlocksAgree(lines, types, index) && BlocksPlanned(lines, types, parse, index, ps[|acc|..])
    decreases |lines| - index
  {
    if index < |lines| {
      PlanBlocksStep(lines, types, parse, index, acc);
      var b := PlanBlock(lines, types, parse, index, acc).value;
      PlanBlocksPlanned(lines, types, parse, index + |types|, b);
      BlocksPlannedStep(lines, types, parse, index, acc, PlanBlocksFrom(lines, types, parse, index + |types|, b).value);
    }
  }

  /**
   * A failure of the blocks from line `index` on is a word mismatch of a
   * block whose lines disagree, or a level named "ignore"; blocks that all
   * agree are planned when no level is named "ignore".
   */
  lemma {:induction false} PlanBlocksOutcome(lines: seq<Line>, types: seq<AnnotationType>,
                                             parse: (string, AnnotationType) -> seq<string>, index: nat, acc: seq<Planned>)
    requires WholeBlocks(|lines|, index, |types|)
    ensures PlanBlocksFrom(lines, types, parse, index, acc).Failure? ==>
      var e := PlanBlocksFrom(lines, types, parse, index, acc).error;
      (e.WordMismatch? && !BlocksAgree(lines, types, index)) || e == MissingLevel("ignore")
    ensures BlocksAgree(lines, types, index) && LevelsNotIgnored(types) ==>
      PlanBlocksFrom(lines, types, parse, index, acc).Success?
    decreases |lines| - index
  {
    if index < |lines| {
      PlanBlocksStep(lines, types, parse, index, acc);
      PlanBlockOutcome(lines, types, parse, index, acc);
      var b := PlanBlock(lines, types, parse, index, acc);
      if b.Success? {
        PlanBlocksOutcome(lines, types, parse, index + |types|, b.value);
      }
    }
  }

  /**
   * A plan holds the words of the file's blocks, block after block, each
   * block's word levels in schema order and each row's words in order, and
   * all blocks agree.
   */
  lemma IlgPlanShape(lines: seq<Line>, types: seq<AnnotationType>, parse: (string, AnnotationType) -> seq<string>)
    requires IlgPlan(lines, types, parse).Success?
    ensures |types| > 0 && |lines| % |types| == 0
    ensures BlocksAgree(lines, types, 0)
    ensures BlocksPlanned(lines, types, parse, 0, IlgPlan(lines, types, parse).value)
  {
    WholeBlocksMod(|lines|, 0, |types|);
    PlanBlocksPlanned(lines, types, parse, 0, []);
  }

  /**
   * With whole blocks, a plan fails with a word mismatch only when some
   * block's read lines disagree, and otherwise only for a level named
   * "ignore"; when no level is, it fails exactly when some block disagrees.
   */
  lemma IlgPlanFails(lines: seq<Line>, types: seq<AnnotationType>, parse: (string, AnnotationType) -> seq<string>)
    requires |types| > 0 && |lines| % |types| == 0
    ensures IlgPlan(lines, types, parse).Failure? ==>
      || (IlgPlan(lines, types, parse).error.WordMismatch? && !BlocksAgree(lines, types, 0))
      || IlgPlan(lines, types, parse).error == MissingLevel("ignore")
    ensures LevelsNotIgnored(types) ==> (IlgPlan(lines, types, parse).Success? <==> BlocksAgree(lines, types, 0))
  {
    WholeBlocksMod(|lines|, 0, |types|);
    PlanBlocksOutcome(lines, types, parse, 0, []);
    if IlgPlan(lines, types, parse).Success? {
      PlanBlocksPlanned(lines, types, parse, 0, []);
    }
  }

  // ---------------------------------------------------------------------------
  // Reading a file into discourse data
  // ---------------------------------------------------------------------------

  /** Reads the lines of one block into rows by name, checking each line against the last row stored. */
  method ReadBlock(block: seq<Line>, types: seq<AnnotationType>, parse: (string, AnnotationType) -> seq<string>)
    returns (r: Result<seq<Row>, IlgError>)
    requires |block| == |types|
    ensures r == ReadBlockFrom(block, types, parse, 0, [])
    ensures r.Success? <==>
      forall j1, j2 :: Read(types, j1) && Read(types, j2) ==> |block[j1].tokens| == |block[j2].tokens|
    ensures r.Success? ==> Uniform(r.value)
  {
    ReadBlockSpec(block, types, parse);
    var rows: seq<Row> := [];
    var j := 0;
    while j < |types|
      invariant 0 <= j <= |types|
      invariant ReadBlockFrom(block, types, parse, 0, []) == ReadBlockFrom(block, types, parse, j, rows)
    {
      if types[j].name != "ignore" {
        var l := block[j];
        if |rows| != 0 && |rows[|rows| - 1].cells| != |l.tokens| {
          return Failure(WordMismatch(l.index as int - 1, rows[|rows| - 1].cells, l.index, l.tokens));
        }
        var cells := ReadCells(l.tokens, types[j], parse);
        rows := Put(rows, Row(types[j], cells));
      }
      j := j + 1;
    }
    r := Success(rows);
  }

  /** Once the units of a prefix are found, a missing next name is the error of the whole. */
  lemma {:induction false} BaseUnitsStuck(rows: seq<Row>, names: seq<string>, i: nat, k: nat)
    requires HasColumn(rows, i)
    requires k < |names| && FindRow(rows, names[k]).None?
    requires BaseUnits(rows, names[..k], i).Success?
    ensures BaseUnits(rows, names, i) == Failure(MissingLevel(names[k]))
    decreases |names|
  {
    var init := names[..|names| - 1];
    if k == |names| - 1 {
      assert init == names[..k];
    } else {
      assert init[..k] == names[..k] && init[k] == names[k];
      BaseUnitsStuck(rows, init, i, k);
    }
  }

  lemma BaseUnitsSnoc(rows: seq<Row>, names: seq<string>, i: nat, k: nat, batch: map<string, seq<BaseAnnotation>>)
    requires HasColumn(rows, i) && k < |names|
    requires BaseUnits(rows, names[..k], i) == Success(batch)
    requires FindRow(rows, names[k]).Some?
    ensures BaseUnits(rows, names[..k + 1], i) ==
            Success(batch[names[k] := CellUnits(FindRow(rows, names[k]).value.cells[i])])
  {
    assert names[..k + 1][..k] == names[..k];
  }

  /** Giving a level the range of its new units keeps a batch fitting the levels. */
  lemma FitsStep(refs: map<string, Range>, batch: map<string, seq<BaseAnnotation>>,
                 levels: map<string, seq<BaseAnnotation>>, n: string, units: seq<BaseAnnotation>)
    requires Fits(refs, batch, levels) && refs.Keys == batch.Keys && n in levels
    ensures Fits(refs[n := Range(|levels[n]|, |levels[n]| + |units|)], batch[n := units], levels)
  {
  }

  /** The ranges and units of word `i` on the base levels, against the current level lengths. */
  method BuildUnits(d: DiscourseData, rows: seq<Row>, names: seq<string>, i: nat)
    returns (r: Result<(map<string, Range>, map<string, seq<BaseAnnotation>>), IlgError>)
    requires HasColumn(rows, i)
    requires forall n :: n in names ==> n in d.baseLevels
    ensures r.Failure? <==> BaseUnits(rows, names, i).Failure?
    ensures r.Failure? ==> r.error == BaseUnits(rows, names, i).error
    ensures r.Success? ==>
      && r.value.1 == BaseUnits(rows, names, i).value
      && r.value.0.Keys == r.value.1.Keys
      && Fits(r.value.0, r.value.1, d.baseLevels)
  {
    var refs: map<string, Range> := map[];
    var batch: map<string, seq<BaseAnnotation>> := map[];
    var k := 0;
    while k < |names|
      invariant 0 <= k <= |names|
      invariant BaseUnits(rows, names[..k], i) == Success(batch)
      invariant refs.Keys == batch.Keys && Fits(refs, batch, d.baseLevels)
    {
      var n := names[k];
      var found := FindRow(rows, n);
      if found.None? {
        BaseUnitsStuck(rows, names, i, k);
        return Failure(MissingLevel(n));
      }
      var units := CellUnits(found.value.cells[i]);
      var count := d.LevelLength(n);
      BaseUnitsSnoc(rows, names, i, k, batch);
      FitsStep(refs, batch, d.baseLevels, n, units);
      refs := refs[n := Range(count, count + |units|)];
      batch := batch[n := units];
      k := k + 1;
    }
    assert names[..k] == names;
    r := Success((refs, batch));
  }

  /** The token and type attributes of word `i`, row by row. */
  method BuildColumns(rows: seq<Row>, i: nat) returns (token: map<string, Value>, additional: map<string, Value>)
    requires HasColumn(rows, i)
    ensures token == TokenColumns(rows, i) && additional == AdditionalColumns(rows, i)
  {
    token := map[];
    additional := map[];
    var m := 0;
    while m < |rows|
      invariant 0 <= m <= |rows|
      invariant token == TokenColumns(rows[..m], i) && additional == AdditionalColumns(rows[..m], i)
    {
      assert rows[..m + 1][..m] == rows[..m] && rows[..m + 1][m] == rows[m];
      var x := rows[m];
      if x.t.token {
        token := token[x.t.name := CellValue(x.cells[i])];
      }
      if !x.t.base && !x.t.anchor {
        additional := additional[x.t.name := CellValue(x.cells[i])];
      }
      m := m + 1;
    }
    assert rows[..m] == rows;
  }

  /** Builds word `i` of word level `name` and its units against the current level lengths. */
  method BuildIlgWord(d: DiscourseData, rows: seq<Row>, types: seq<AnnotationType>, name: string, word: Row, i: nat)
    returns (r: Result<(Annotation, map<string, seq<BaseAnnotation>>), IlgError>)
    requires HasColumn(rows, i) && i < |word.cells|
    requires forall t :: t in types && t.base ==> t.name in d.baseLevels
    ensures r.Failure? <==> PlanToken(rows, types, name, word, i).Failure?
    ensures r.Failure? ==> r.error == PlanToken(rows, types, name, word, i).error
    ensures r.Success? ==>
      && Fits(r.value.0.refs, r.value.1, d.baseLevels)
      && Built(r.value.0, r.value.1, PlanToken(rows, types, name, word, i).value)
      && PlanToken(rows, types, name, word, i).value.level == name
  {
    var names := BaseLevelNames(types);
    assert forall n :: n in names ==> n in d.baseLevels;
    var units := BuildUnits(d, rows, names, i);
    if units.Failure? {
      return Failure(units.error);
    }
    var token, additional := BuildColumns(rows, i);
    var w := Annotation(CellMark(word.cells[i]), units.value.0, token, additional);
    r := Success((w, units.value.1));
  }

  lemma PlanTokensStep(rows: seq<Row>, types: seq<AnnotationType>, name: string, word: Row, i: nat, acc: seq<Planned>)
    requires Uniform(rows) && word in rows && i < |word.cells|
    ensures HasColumn(rows, i)
    ensures PlanToken(rows, types, name, word, i).Failure? ==>
      PlanTokensFrom(rows, types, name, word, i, acc) == Failure(PlanToken(rows, types, name, word, i).error)
    ensures PlanToken(rows, types, name, word, i).Success? ==>
      PlanTokensFrom(rows, types, name, word, i, acc) ==
      PlanTokensFrom(rows, types, name, word, i + 1, acc + [PlanToken(rows, types, name, word, i).value])
  {
  }

  /** What a reader's step came to: its error, or the words planned so far. */
  function Outcome(r: Result<(), IlgError>, plans: seq<Planned>): Result<seq<Planned>, IlgError>
  {
    if r.Failure? then Failure(r.error) else Success(plans)
  }

  /** Adds word `i` of word level `name`. */
  method AddIlgWord(d: DiscourseData, rows: seq<Row>, types: seq<AnnotationType>, name: string, word: Row, i: nat,
                    ghost plans0: seq<Planned>)
    returns (r: Result<(), IlgError>, ghost plans: seq<Planned>)
    requires HasColumn(rows, i) && i < |word.cells|
    requires d.Valid() && name in d.wordLevels
    requires forall t :: t in types && t.base ==> t.name in d.baseLevels
    requires Realizes(d.log, d.baseLevels, plans0)
    modifies d
    ensures d.Valid() && d.name == old(d.name) && d.baseLevels.Keys == old(d.baseLevels.Keys)
    ensures d.wordLevels.Keys == old(d.wordLevels.Keys)
    ensures r.Failure? <==> PlanToken(rows, types, name, word, i).Failure?
    ensures r.Failure? ==> r.error == PlanToken(rows, types, name, word, i).error
    ensures r.Success? ==>
      plans == plans0 + [PlanToken(rows, types, name, word, i).value] && Realizes(d.log, d.baseLevels, plans)
  {
    plans := plans0;
    var w := BuildIlgWord(d, rows, types, name, word, i);
    if w.Failure? {
      return Failure(w.error), plans;
    }
    ghost var p := PlanToken(rows, types, name, word, i).value;
    AddKeepsRealizes(d.log, d.baseLevels, plans, name, w.value.0, w.value.1, p);
    d.AddAnnotations(name, w.value.0, w.value.1);
    plans := plans + [p];
    r := Success(());
  }

  /** Adds the words of word level `name`, one per value of its row. */
  method AddLevelWords(d: DiscourseData, rows: seq<Row>, types: seq<AnnotationType>, name: string, word: Row,
                       ghost plans0: seq<Planned>)
    returns (r: Result<(), IlgError>, ghost plans: seq<Planned>)
    requires Uniform(rows) && word in rows
    requires d.Valid() && name in d.wordLevels
    requires forall t :: t in types && t.base ==> t.name in d.baseLevels
    requires Realizes(d.log, d.baseLevels, plans0)
    modifies d
    ensures d.Valid() && d.name == old(d.name) && d.baseLevels.Keys == old(d.baseLevels.Keys)
    ensures d.wordLevels.Keys == old(d.wordLevels.Keys)
    ensures Outcome(r, plans) == PlanTokensFrom(rows, types, name, word, 0, plans0)
    ensures r.Success? ==> Realizes(d.log, d.baseLevels, plans)
  {
    plans := plans0;
    var i := 0;
    while i < |word.cells|
      invariant 0 <= i <= |word.cells|
      invariant d.Valid() && d.name == old(d.name) && d.baseLevels.Keys == old(d.baseLevels.Keys)
      invariant d.wordLevels.Keys == old(d.wordLevels.Keys)
      invariant Realizes(d.log, d.baseLevels, plans)
      invariant PlanTokensFrom(rows, types, name, word, 0, plans0) == PlanTokensFrom(rows, types, name, word, i, plans)
    {
      PlanTokensStep(rows, types, name, word, i, plans);
      r, plans := AddIlgWord(d, rows, types, name, word, i, plans);
      if r.Failure? {
        return;
      }
      i := i + 1;
    }
    r := Success(());
  }

  /** Adds the words of the word level `name` of a block. */
  method AddLevel(d: DiscourseData, rows: seq<Row>, types: seq<AnnotationType>, name: string, ghost plans0: seq<Planned>)
    returns (r: Result<(), IlgError>, ghost plans: seq<Planned>)
    requires Uniform(rows)
    requires d.Valid() && name in d.wordLevels && Realizes(d.log, d.baseLevels, plans0)
    requires forall t :: t in types && t.base ==> t.name in d.baseLevels
    modifies d
    ensures d.Valid() && d.name == old(d.name)
    ensures d.baseLevels.Keys == old(d.baseLevels.Keys) && d.wordLevels.Keys == old(d.wordLevels.Keys)
    ensures Outcome(r, plans) == PlanLevel(rows, types, name, plans0)
    ensures r.Success? ==> Realizes(d.log, d.baseLevels, plans)
  {
    var word := FindRow(rows, name);
    if word.None? {
      return Failure(MissingLevel(name)), plans0;
    }
    r, plans := AddLevelWords(d, rows, types, name, word.value, plans0);
  }

  /** Adds the words of one block, word level by word level. */
  method AddBlockWords(d: DiscourseData, rows: seq<Row>, types: seq<AnnotationType>, ghost plans0: seq<Planned>)
    returns (r: Result<(), IlgError>, ghost plans: seq<Planned>)
    requires Uniform(rows)
    requires d.Valid() && Realizes(d.log, d.baseLevels, plans0)
    requires forall t :: t in types && t.base ==> t.name in d.baseLevels
    requires forall n :: n in WordLevelNames(types) ==> n in d.wordLevels
    modifies d
    ensures d.Valid() && d.name == old(d.name)
    ensures d.baseLevels.Keys == old(d.baseLevels.Keys) && d.wordLevels.Keys == old(d.wordLevels.Keys)
    ensures Outcome(r, plans) == PlanLevelsFrom(rows, types, WordLevelNames(types), 0, plans0)
    ensures r.Success? ==> Realizes(d.log, d.baseLevels, plans)
  {
    var names := WordLevelNames(types);
    plans := plans0;
    var k := 0;
    while k < |names|
      invariant 0 <= k <= |names|
      invariant d.Valid() && d.name == old(d.name) && Realizes(d.log, d.baseLevels, plans)
      invariant d.baseLevels.Keys == old(d.baseLevels.Keys) && d.wordLevels.Keys == old(d.wordLevels.Keys)
      invariant PlanLevelsFrom(rows, types, names, 0, plans0) == PlanLevelsFrom(rows, types, names, k, plans)
    {
      r, plans := AddLevel(d, rows, types, names[k], plans);
      if r.Failure? {
        return;
      }
      k := k + 1;
    }
    r := Success(());
  }

  /** Reads the block starting at line `index` and adds its words. */
  method AddIlgBlock(d: DiscourseData, lines: seq<Line>, types: seq<AnnotationType>,
                     parse: (string, AnnotationType) -> seq<string>, index: nat, ghost plans0: seq<Planned>)
    returns (r: Result<(), IlgError>, ghost plans: seq<Planned>)
    requires index + |types| <= |lines|
    requires d.Valid()
    requires forall t :: t in types && t.base ==> t.name in d.baseLevels
    requires forall n :: n in WordLevelNames(types) ==> n in d.wordLevels
    requires Realizes(d.log, d.baseLevels, plans0)
    modifies d
    ensures d.Valid() && d.name == old(d.name)
    ensures d.baseLevels.Keys == old(d.baseLevels.Keys) && d.wordLevels.Keys == old(d.wordLevels.Keys)
    ensures Outcome(r, plans) == PlanBlock(lines, types, parse, index, plans0)
    ensures r.Success? ==> Realizes(d.log, d.baseLevels, plans)
  {
    plans := plans0;
    var block := lines[index..index + |types|];
    var rows := ReadBlock(block, types, parse);
    if rows.Failure? {
      return Failure(rows.error), plans;
    }
    ReadBlockUniform(block, types, parse);
    r, plans := AddBlockWords(d, rows.value, types, plans);
  }

  /** Reads and adds the blocks from line `index` on, in order. */
  method AddIlgBlocks(d: DiscourseData, lines: seq<Line>, types: seq<AnnotationType>,
                      parse: (string, AnnotationType) -> seq<string>, ghost plans0: seq<Planned>)
    returns (r: Result<(), IlgError>, ghost plans: seq<Planned>)
    requires WholeBlocks(|lines|, 0, |types|)
    requires d.Valid()
    requires forall t :: t in types && t.base ==> t.name in d.baseLevels
    requires forall n :: n in WordLevelNames(types) ==> n in d.wordLevels
    requires Realizes(d.log, d.baseLevels, plans0)
    modifies d
    ensures d.Valid() && d.name == old(d.name)
    ensures Outcome(r, plans) == PlanBlocksFrom(lines, types, parse, 0, plans0)
    ensures r.Success? ==> Realizes(d.log, d.baseLevels, plans)
  {
    plans := plans0;
    var index := 0;
    while index < |lines|
      invariant WholeBlocks(|lines|, index, |types|)
      invariant d.Valid() && d.name == old(d.name)
      invariant d.baseLevels.Keys == old(d.baseLevels.Keys) && d.wordLevels.Keys == old(d.wordLevels.Keys)
      invariant Realizes(d.log, d.baseLevels, plans)
      invariant PlanBlocksFrom(lines, types, parse, 0, plans0) == PlanBlocksFrom(lines, types, parse, index, plans)
    {
      PlanBlocksStep(lines, types, parse, index, plans);
      r, plans := AddIlgBlock(d, lines, types, parse, index, plans);
      if r.Failure? {
        return;
      }
      assert WholeBlocks(|lines|, index + |types|, |types|);
      index := index + |types|;
    }
    r := Success(());
  }

  /**
   * Reads a gloss file into discourse data: block by block, each word level's
   * row gives one word per value, with ranges over the base levels and the
   * other rows' values as attributes. The result holds exactly the planned
   * words, and each base level is the concatenation of the units planned for it.
   */
  method IlgToData(name: string, text: string, delimiter: Option<char>, types: seq<AnnotationType>,
                   parse: (string, AnnotationType) -> seq<string>)
    returns (r: Result<DiscourseData, IlgError>)
    ensures r.Failure? <==> IlgTextPlan(text, delimiter, types, parse).Failure?
    ensures r.Failure? ==> r.error == IlgTextPlan(text, delimiter, types, parse).error
    ensures r.Success? ==>
      && fresh(r.value) && r.value.Valid() && r.value.name == name && r.value.types == types
      && Realizes(r.value.log, r.value.baseLevels, IlgTextPlan(text, delimiter, types, parse).value)
      && forall n :: n in r.value.baseLevels ==>
           r.value.baseLevels[n] == Gather(IlgTextPlan(text, delimiter, types, parse).value, n)
  {
    var read := TextToLines(text, delimiter);
    if read.Failure? {
      return Failure(DelimiterMissing(read.error.delimiter));
    }
    r := LinesToData(name, read.value, types, parse);
  }

  /** Reading the non-blank lines of a gloss file, once they are split into tokens. */
  method LinesToData(name: string, lines: seq<Line>, types: seq<AnnotationType>,
                     parse: (string, AnnotationType) -> seq<string>)
    returns (r: Result<DiscourseData, IlgError>)
    ensures r.Failure? <==> IlgPlan(lines, types, parse).Failure?
    ensures r.Failure? ==> r.error == IlgPlan(lines, types, parse).error
    ensures r.Success? ==>
      && fresh(r.value) && r.value.Valid() && r.value.name == name && r.value.types == types
      && Realizes(r.value.log, r.value.baseLevels, IlgPlan(lines, types, parse).value)
      && forall n :: n in r.value.baseLevels ==>
           r.value.baseLevels[n] == Gather(IlgPlan(lines, types, parse).value, n)
  {
    if |types| == 0 {
      return Failure(NoTypes);
    }
    if |lines| % |types| != 0 {
      return Failure(LinesMismatch(|lines|, |types|));
    }
    WholeBlocksMod(|lines|, 0, |types|);
    var d := new DiscourseData(name, types);
    var added;
    ghost var plans;
    added, plans := AddIlgBlocks(d, lines, types, parse, []);
    if added.Failure? {
      return Failure(added.error);
    }
    forall n | n in d.baseLevels ensures d.baseLevels[n] == Gather(plans, n) {
      LevelIsGathered(d.log, d.baseLevels, d.wordLevels, plans, n);
    }
    r := Success(d);
  }

  // ---------------------------------------------------------------------------
  // Export
  // ---------------------------------------------------------------------------

  /** A word to write: its spelling and the segments of its transcription. */
  datatype ExportWord = ExportWord(spelling: string, transcription: seq<string>)

  /** The words in blocks of 11; the last block holds what remains. */
  function Chunks(words: seq<ExportWord>): seq<seq<ExportWord>>
    decreases |words|
  {
    if words == [] then []
    else if |words| <= 11 then [words]
    else [words[..11]] + Chunks(words[11..])
  }

  function Flatten(chunks: seq<seq<ExportWord>>): seq<ExportWord>
    decreases |chunks|
  {
    if chunks == [] then [] else chunks[0] + Flatten(chunks[1..])
  }

  /** The blocks give back the words in order; all but the last hold 11 words, the last 1 to 11. */
  lemma {:induction false} ChunksShape(words: seq<ExportWord>)
    ensures Flatten(Chunks(words)) == words
    ensures forall k :: 0 <= k < |Chunks(words)| - 1 ==> |Chunks(words)[k]| == 11
    ensures words != [] ==> 0 < |Chunks(words)[|Chunks(words)| - 1]| <= 11
    ensures words == [] <==> Chunks(words) == []
    decreases |words|
  {
    if |words| > 11 {
      ChunksShape(words[11..]);
      assert words[..11] + words[11..] == words;
    }
  }

  /** Appending a block to a whole number of full blocks appends it to the chunking. */
  lemma {:induction false} ChunksAppend(xs: seq<ExportWord>, ys: seq<ExportWord>, blocks: nat)
    requires |xs| == 11 * blocks && 0 < |ys| <= 11
    ensures Chunks(xs + ys) == Chunks(xs) + [ys]
    decreases |xs|
  {
    if xs != [] {
      assert (xs + ys)[..11] == xs[..11];
      assert (xs + ys)[11..] == xs[11..] + ys;
      ChunksAppend(xs[11..], ys, blocks - 1);
    } else {
      assert xs + ys == ys;
    }
  }

  function Spellings(c: seq<ExportWord>): seq<string>
  {
    seq(|c|, k requires 0 <= k < |c| => c[k].spelling)
  }

  function Transcriptions(c: seq<ExportWord>, transDelim: string): seq<string>
  {
    seq(|c|, k requires 0 <= k < |c| => Join(c[k].transcription, transDelim))
  }

  /** Each block is two lines: the spellings, and the transcriptions, each separated by spaces. */
  function ExportLines(chunks: seq<seq<ExportWord>>, transDelim: string): (r: seq<string>)
    ensures |r| == 2 * |chunks|
    decreases |chunks|
  {
    if chunks == [] then []
    else
      var c := chunks[|chunks| - 1];
      ExportLines(chunks[..|chunks| - 1], transDelim) + [Join(Spellings(c), " "), Join(Transcriptions(c, transDelim), " ")]
  }

  /** Line 2k of the output is block k's spellings and line 2k+1 its transcriptions. */
  lemma {:induction false} ExportLinesAt(chunks: seq<seq<ExportWord>>, transDelim: string, k: nat)
    requires k < |chunks|
    ensures ExportLines(chunks, transDelim)[2 * k] == Join(Spellings(chunks[k]), " ")
    ensures ExportLines(chunks, transDelim)[2 * k + 1] == Join(Transcriptions(chunks[k], transDelim), " ")
    decreases |chunks|
  {
    if k < |chunks| - 1 {
      ExportLinesAt(chunks[..|chunks| - 1], transDelim, k);
    }
  }

  /**
   * Splitting an exported spelling line on spaces gives back the block's
   * spellings, provided no spelling holds a space.
   */
  lemma ExportSpellingsRoundTrip(words: seq<ExportWord>, transDelim: string, k: nat)
    requires forall w :: w in words ==> ' ' !in w.spelling
    requires k < |Chunks(words)|
    ensures SplitOn(ExportLines(Chunks(words), transDelim)[2 * k], ' ') == Spellings(Chunks(words)[k])
  {
    ChunksShape(words);
    ExportLinesAt(Chunks(words), transDelim, k);
    var c := Chunks(words)[k];
    assert c != [] by {
      if k < |Chunks(words)| - 1 { assert |c| == 11; }
    }
    forall s | s in Spellings(c) ensures ' ' !in s {
      var m :| 0 <= m < |c| && Spellings(c)[m] == s;
      ChunkMember(Chunks(words), k, m);
    }
    JoinSplitOn(Spellings(c), ' ');
  }

  /** A word of a block is one of the flattened words. */
  lemma {:induction false} ChunkMember(chunks: seq<seq<ExportWord>>, k: nat, m: nat)
    requires k < |chunks| && m < |chunks[k]|
    ensures chunks[k][m] in Flatten(chunks)
    decreases |chunks|
  {
    if k > 0 {
      ChunkMember(chunks[1..], k - 1, m);
    }
  }

  /** Writing one more block of up to 11 words after whole blocks adds its two lines. */
  lemma ExportFlush(words: seq<ExportWord>, start: nat, end: nat, transDelim: string, blocks: nat)
    requires start == 11 * blocks && start < end <= |words| && end - start <= 11
    ensures ExportLines(Chunks(words[..end]), transDelim) ==
      ExportLines(Chunks(words[..start]), transDelim)
        + [Join(Spellings(words[start..end]), " "), Join(Transcriptions(words[start..end], transDelim), " ")]
  {
    ChunksAppend(words[..start], words[start..end], blocks);
    assert words[..start] + words[start..end] == words[..end];
    var cs := Chunks(words[..start]) + [words[start..end]];
    assert cs[..|cs| - 1] == Chunks(words[..start]);
  }

  /** The buffered spellings and transcriptions grow by the next word's. */
  lemma BufferSnoc(words: seq<ExportWord>, start: nat, i: nat, transDelim: string)
    requires start <= i < |words|
    ensures Spellings(words[start..i + 1]) == Spellings(words[start..i]) + [words[i].spelling]
    ensures Transcriptions(words[start..i + 1], transDelim) ==
      Transcriptions(words[start..i], transDelim) + [Join(words[i].transcription, transDelim)]
  {
  }

  /** Writes one block: the spellings line, then the transcriptions line. */
  method WriteBlock(out: seq<string>, spellings: seq<string>, transcriptions: seq<string>,
                    ghost words: seq<ExportWord>, ghost start: nat, ghost end: nat, ghost blocks: nat,
                    ghost transDelim: string)
    returns (out': seq<string>)
    requires start == 11 * blocks && start < end <= |words| && end - start <= 11
    requires out == ExportLines(Chunks(words[..start]), transDelim)
    requires spellings == Spellings(words[start..end])
    requires transcriptions == Transcriptions(words[start..end], transDelim)
    ensures out' == ExportLines(Chunks(words[..end]), transDelim)
  {
    ExportFlush(words, start, end, transDelim, blocks);
    out' := out + [Join(spellings, " "), Join(transcriptions, " ")];
  }

  /** Writes the words in blocks, flushing whenever more than 10 have accumulated. */
  method ExportDiscourseIlg(words: seq<ExportWord>, transDelim: string) returns (out: seq<string>)
    ensures out == ExportLines(Chunks(words), transDelim)
  {
    out := [];
    var spellings: seq<string> := [];
    var transcriptions: seq<string> := [];
    ghost var start := 0;
    ghost var blocks := 0;
    var i := 0;
    while i < |words|
      invariant start <= i <= |words| && i - start <= 10 && start == 11 * blocks
      invariant spellings == Spellings(words[start..i])
      invariant transcriptions == Transcriptions(words[start..i], transDelim)
      invariant out == ExportLines(Chunks(words[..start]), transDelim)
    {
      BufferSnoc(words, start, i, transDelim);
      spellings := spellings + [words[i].spelling];
      transcriptions := transcriptions + [Join(words[i].transcription, transDelim)];
      if |spellings| > 10 {
        out := WriteBlock(out, spellings, transcriptions, words, start, i + 1, blocks, transDelim);
        spellings := [];
        transcriptions := [];
        start := i + 1;
        blocks := blocks + 1;
      }
      i := i + 1;
    }
    if |spellings| > 0 {
      out := WriteBlock(out, spellings, transcriptions, words, start, |words|, blocks, transDelim);
    }
    assert words[..|words|] == words;
  }
}
