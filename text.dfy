/**
 * The string operations of the host language that the readers use:
 * substring search (`a in b`), lower-casing, stripping, splitting on
 * whitespace or on one delimiter character, and joining.
 */
module Text {

  import opened Options

  /** `needle` occurs at position `i` of `hay`. */
  ghost predicate OccursAt(hay: string, needle: string, i: int)
  {
    0 <= i && i + |needle| <= |hay| && hay[i..i + |needle|] == needle
  }

  /** Substring search, scanning `hay` from the left. */
  predicate Contains(hay: string, needle: string)
    decreases |hay|
  {
    |needle| <= |hay| && (hay[..|needle|] == needle || (|hay| > 0 && Contains(hay[1..], needle)))
  }

  /** The scan finds `needle` exactly when it occurs somewhere in `hay`. */
  lemma {:induction false} ContainsIff(hay: string, needle: string)
    ensures Contains(hay, needle) <==> exists i :: OccursAt(hay, needle, i)
    decreases |hay|
  {
    if |needle| <= |hay| && hay[..|needle|] != needle && |hay| > 0 {
      ContainsIff(hay[1..], needle);
      if Contains(hay[1..], needle) {
        var i :| OccursAt(hay[1..], needle, i);
        assert hay[1..][i..i + |needle|] == hay[i + 1..i + 1 + |needle|];
        assert OccursAt(hay, needle, i + 1);
      }
      if exists i :: OccursAt(hay, needle, i) {
        var i :| OccursAt(hay, needle, i);
        assert i != 0;
        assert hay[1..][i - 1..i - 1 + |needle|] == hay[i..i + |needle|];
        assert OccursAt(hay[1..], needle, i - 1);
      }
    } else if |needle| <= |hay| && hay[..|needle|] == needle {
      assert OccursAt(hay, needle, 0);
    }
  }

  /** The empty string occurs in every string. */
  lemma EmptyContained(hay: string)
    ensures Contains(hay, "")
  {
    assert hay[..0] == "";
  }

  /** Every string contains itself. */
  lemma ContainsSelf(s: string)
    ensures Contains(s, s)
  {
    assert s[..|s|] == s;
  }

  /** Lower-casing of one character (ASCII letters only). */
  function LowerChar(c: char): char
  {
    if 'A' <= c <= 'Z' then (c as int - 'A' as int + 'a' as int) as char else c
  }

  function Lower(s: string): (r: string)
    ensures |r| == |s|
    ensures forall i :: 0 <= i < |s| ==> r[i] == LowerChar(s[i])
  {
    seq(|s|, i requires 0 <= i < |s| => LowerChar(s[i]))
  }

  /** The whitespace characters recognised by strip and split. */
  predicate IsSpace(c: char)
  {
    c == ' ' || c == '\t' || c == '\n' || c == '\r' || c == '\U{B}' || c == '\U{C}'
    || ('\U{1C}' <= c <= '\U{1F}')
    || c == '\U{85}' || c == '\U{A0}' || c == '\U{1680}'
    || ('\U{2000}' <= c <= '\U{200A}')
    || c == '\U{2028}' || c == '\U{2029}' || c == '\U{202F}' || c == '\U{205F}' || c == '\U{3000}'
  }

  predicate IsBlank(s: string)
  {
    forall i :: 0 <= i < |s| ==> IsSpace(s[i])
  }

  function TrimLeft(s: string): (r: string)
    ensures |r| <= |s| && r == s[|s| - |r|..]
    ensures r != [] ==> !IsSpace(r[0])
    ensures IsBlank(s[..|s| - |r|])
    decreases |s|
  {
    if s != [] && IsSpace(s[0]) then
      var r := TrimLeft(s[1..]);
      assert s[..|s| - |r|] == [s[0]] + s[1..][..|s| - 1 - |r|];
      r
    else s
  }

  function TrimRight(s: string): (r: string)
    ensures |r| <= |s| && r == s[..|r|]
    ensures r != [] ==> !IsSpace(r[|r| - 1])
    ensures IsBlank(s[|r|..])
    decreases |s|
  {
    if s != [] && IsSpace(s[|s| - 1]) then
      var r := TrimRight(s[..|s| - 1]);
      assert s[|r|..] == s[..|s| - 1][|r|..] + [s[|s| - 1]];
      r
    else s
  }

  /** Removes leading and trailing whitespace. */
  function Strip(s: string): (r: string)
  {
    TrimRight(TrimLeft(s))
  }

  /** A stripped string is empty exactly when the original is all whitespace. */
  lemma StripEmptyIffBlank(s: string)
    ensures Strip(s) == [] <==> IsBlank(s)
  {
    var l := TrimLeft(s);
    if Strip(s) == [] {
      assert IsBlank(l[0..]);
      assert s == s[..|s| - |l|] + l;
    }
  }

  /** Splitting on whitespace: the maximal runs of non-whitespace characters. */
  function SplitWhitespace(s: string): (r: seq<string>)
    decreases |s|
  {
    if s == [] then []
    else if IsSpace(s[0]) then SplitWhitespace(s[1..])
    else
      var rest := SplitWhitespace(s[1..]);
      if |s| > 1 && !IsSpace(s[1]) then [[s[0]] + rest[0]] + rest[1..]
      else [[s[0]]] + rest
  }

  /** No whitespace token is empty or holds whitespace. */
  lemma {:induction false} SplitWhitespaceTokens(s: string)
    ensures forall t :: t in SplitWhitespace(s) ==> t != [] && forall j :: 0 <= j < |t| ==> !IsSpace(t[j])
    ensures |s| > 0 && !IsSpace(s[0]) ==> |SplitWhitespace(s)| > 0 && SplitWhitespace(s)[0][0] == s[0]
    decreases |s|
  {
    if s != [] {
      SplitWhitespaceTokens(s[1..]);
    }
  }

  /** The characters that are not whitespace, in order. */
  function NonSpace(s: string): string
    decreases |s|
  {
    if s == [] then [] else (if IsSpace(s[0]) then [] else [s[0]]) + NonSpace(s[1..])
  }

  function Concat(parts: seq<string>): string
    decreases |parts|
  {
    if parts == [] then [] else parts[0] + Concat(parts[1..])
  }

  /** Splitting on whitespace keeps every other character, in order. */
  lemma {:induction false} SplitWhitespaceKeepsText(s: string)
    ensures Concat(SplitWhitespace(s)) == NonSpace(s)
    decreases |s|
  {
    if s != [] {
      SplitWhitespaceKeepsText(s[1..]);
      SplitWhitespaceTokens(s[1..]);
      if !IsSpace(s[0]) && |s| > 1 && !IsSpace(s[1]) {
        var rest := SplitWhitespace(s[1..]);
        assert Concat(rest) == rest[0] + Concat(rest[1..]);
      }
    }
  }

  /** Splitting on one delimiter character; empty fields are kept. */
  function SplitOn(s: string, d: char): (r: seq<string>)
    ensures |r| > 0
    decreases |s|
  {
    if s == [] then [[]]
    else
      var rest := SplitOn(s[1..], d);
      if s[0] == d then [[]] + rest else [[s[0]] + rest[0]] + rest[1..]
  }

  /** `sep.join(parts)`. */
  function Join(parts: seq<string>, sep: string): string
    decreases |parts|
  {
    if parts == [] then []
    else if |parts| == 1 then parts[0]
    else parts[0] + sep + Join(parts[1..], sep)
  }

  /** Joining the fields with the delimiter gives back the string. */
  lemma {:induction false} SplitOnJoin(s: string, d: char)
    ensures Join(SplitOn(s, d), [d]) == s
    decreases |s|
  {
    if s != [] {
      SplitOnJoin(s[1..], d);
      var rest := SplitOn(s[1..], d);
      if s[0] != d {
        if |rest| > 1 {
          assert Join(rest, [d]) == rest[0] + [d] + Join(rest[1..], [d]);
        }
      }
    }
  }

  /** No field of a split holds the delimiter. */
  lemma {:induction false} SplitOnFields(s: string, d: char)
    ensures forall t :: t in SplitOn(s, d) ==> d !in t
    decreases |s|
  {
    if s != [] {
      SplitOnFields(s[1..], d);
    }
  }

  /** A string without the delimiter splits into itself. */
  lemma {:induction false} SplitOnAbsent(s: string, d: char)
    requires d !in s
    ensures SplitOn(s, d) == [s]
    decreases |s|
  {
    if s != [] {
      assert s[0] != d && d !in s[1..];
      SplitOnAbsent(s[1..], d);
      assert [s[0]] + s[1..] == s;
    }
  }

  /** The first field ends at the first delimiter. */
  lemma {:induction false} SplitOnFirst(a: string, b: string, d: char)
    requires d !in a
    ensures SplitOn(a + [d] + b, d) == [a] + SplitOn(b, d)
    decreases |a|
  {
    var s := a + [d] + b;
    if a == [] {
      assert s[1..] == b;
    } else {
      assert s[1..] == a[1..] + [d] + b;
      SplitOnFirst(a[1..], b, d);
      assert [a[0]] + a[1..] == a;
    }
  }

  /** Splitting the join of fields that do not hold the delimiter gives the fields back. */
  lemma {:induction false} JoinSplitOn(parts: seq<string>, d: char)
    requires |parts| > 0 && forall p :: p in parts ==> d !in p
    ensures SplitOn(Join(parts, [d]), d) == parts
    decreases |parts|
  {
    if |parts| == 1 {
      SplitOnAbsent(parts[0], d);
    } else {
      JoinSplitOn(parts[1..], d);
      SplitOnFirst(parts[0], Join(parts[1..], [d]), d);
    }
  }

  /** The number a string of decimal digits spells, most significant digit first. */
  function DigitsValue(s: string): int
    decreases |s|
  {
    if s == [] then 0 else 10 * DigitsValue(s[..|s| - 1]) + (s[|s| - 1] as int - '0' as int)
  }

  /** Decimal digits of a natural number, without leading zeros. */
  function NatToString(n: nat): (r: string)
    ensures |r| > 0
    ensures forall i :: 0 <= i < |r| ==> '0' <= r[i] <= '9'
    ensures DigitsValue(r) == n
    ensures |r| > 1 ==> r[0] != '0'
    decreases n
  {
    var digit := ['0' + (n % 10) as char];
    if n < 10 then digit else NatToString(n / 10) + digit
  }

  /** The first candidate, in candidate order, that occurs in `text`. */
  function DelimiterIn(text: string, candidates: seq<char>): (r: Option<char>)
    ensures r.Some? ==> r.value in candidates && r.value in text
    ensures r.Some? ==> exists k :: 0 <= k < |candidates| && candidates[k] == r.value
                                    && forall j :: 0 <= j < k ==> candidates[j] !in text
    ensures r.None? <==> forall c :: c in candidates ==> c !in text
    decreases |candidates|
  {
    if candidates == [] then None
    else if candidates[0] in text then Some(candidates[0])
    else DelimiterIn(text, candidates[1..])
  }

  /** The delimiter chosen from a list of labels: the first label holding any candidate decides. */
  function FirstDelimiter(labels: seq<string>, candidates: seq<char>): Option<char>
    decreases |labels|
  {
    if labels == [] then None
    else if DelimiterIn(labels[0], candidates).Some? then DelimiterIn(labels[0], candidates)
    else FirstDelimiter(labels[1..], candidates)
  }

  /**
   * A delimiter is chosen exactly when some label holds a candidate; it is then the
   * earliest candidate found in the first such label, and no earlier label holds any.
   */
  lemma {:induction false} FirstDelimiterChosen(labels: seq<string>, candidates: seq<char>)
    ensures FirstDelimiter(labels, candidates).None? <==>
      forall l, c :: l in labels && c in candidates ==> c !in l
    ensures FirstDelimiter(labels, candidates).Some? ==>
      exists i :: 0 <= i < |labels|
        && (forall k, c :: 0 <= k < i && c in candidates ==> c !in labels[k])
        && FirstDelimiter(labels, candidates) == DelimiterIn(labels[i], candidates)
    decreases |labels|
  {
    if labels != [] {
      FirstDelimiterChosen(labels[1..], candidates);
      if DelimiterIn(labels[0], candidates).None? && FirstDelimiter(labels, candidates).Some? {
        var i :| 0 <= i < |labels[1..]|
          && (forall k, c :: 0 <= k < i && c in candidates ==> c !in labels[1..][k])
          && FirstDelimiter(labels[1..], candidates) == DelimiterIn(labels[1..][i], candidates);
        assert forall k, c :: 0 <= k < i + 1 && c in candidates ==> c !in labels[k] by {
          forall k, c | 0 <= k < i + 1 && c in candidates ensures c !in labels[k] {
            if k > 0 { assert labels[k] == labels[1..][k - 1]; }
          }
        }
      }
      if FirstDelimiter(labels, candidates).None? {
        forall l, c | l in labels && c in candidates ensures c !in l {
          if l != labels[0] { assert l in labels[1..]; }
        }
      }
    }
  }

  /** Scans the labels in order and each label's candidates in order, stopping at the first hit. */
  method FindDelimiter(labels: seq<string>, candidates: seq<char>) returns (d: Option<char>)
    ensures d == FirstDelimiter(labels, candidates)
  {
    d := None;
    var i := 0;
    while i < |labels|
      invariant 0 <= i <= |labels|
      invariant FirstDelimiter(labels, candidates) == FirstDelimiter(labels[i..], candidates)
    {
      var j := 0;
      while j < |candidates|
        invariant 0 <= j <= |candidates|
        invariant DelimiterIn(labels[i], candidates) == DelimiterIn(labels[i], candidates[j..])
      {
        if candidates[j] in labels[i] {
          d := Some(candidates[j]);
          return;
        }
        j := j + 1;
      }
      i := i + 1;
    }
  }
}
