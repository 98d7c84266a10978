/** Attribute-name handling: `snakeToCamel`, `sanitizeFieldNames` and the name filters. */
module Names {

  predicate StartsWith(s: string, prefix: string) {
    |prefix| <= |s| && s[..|prefix|] == prefix
  }

  predicate IsSeparator(c: char) { c == '-' || c == '_' }

  predicate IsLowerAscii(c: char) { 'a' <= c <= 'z' }

  predicate IsUpperAscii(c: char) { 'A' <= c <= 'Z' }

  /** `String.prototype.toUpperCase` on an ASCII lower-case letter. */
  function ToUpperAscii(c: char): (u: char)
    requires IsLowerAscii(c)
    ensures IsUpperAscii(u)
    ensures u as int + 32 == c as int
  {
    (c as int - 32) as char
  }

  /** A match of the regular expression `[-_][a-z]` starts at index `i`. */
  predicate SnakeAt(s: string, i: int) {
    0 <= i && i + 1 < |s| && IsSeparator(s[i]) && IsLowerAscii(s[i + 1])
  }

  predicate IsCamel(s: string) {
    forall i :: 0 <= i < |s| ==> !SnakeAt(s, i)
  }

  /** `str.replace(/([-_][a-z])/g, ...)`: the global regular expression scans left to
      right; every match (a separator and a lower-case letter) becomes the letter upper-cased
      (the two `replace` calls drop the separator), and scanning resumes after the match. */
  function SnakeToCamel(s: string): (r: string)
    ensures |r| <= |s|
    ensures |s| > 0 ==> |r| > 0 && r[0] == (if SnakeAt(s, 0) then ToUpperAscii(s[1]) else s[0])
  {
    if |s| == 0 then []
    else if SnakeAt(s, 0) then [ToUpperAscii(s[1])] + SnakeToCamel(s[2..])
    else [s[0]] + SnakeToCamel(s[1..])
  }

  /** No match survives the conversion, and the conversion leaves a string alone exactly
      when it holds no match. */
  lemma {:induction false} SnakeToCamelIsCamel(s: string)
    ensures IsCamel(SnakeToCamel(s))
    ensures SnakeToCamel(s) == s <==> IsCamel(s)
  {
    if |s| == 0 {
    } else if SnakeAt(s, 0) {
      var rest := SnakeToCamel(s[2..]);
      SnakeToCamelIsCamel(s[2..]);
      var r := [ToUpperAscii(s[1])] + rest;
      assert r == SnakeToCamel(s);
      forall i | 0 <= i < |r| ensures !SnakeAt(r, i) {
        if i > 0 { assert SnakeAt(r, i) == SnakeAt(rest, i - 1); }
      }
      assert |r| < |s|;
    } else {
      var rest := SnakeToCamel(s[1..]);
      SnakeToCamelIsCamel(s[1..]);
      var r := [s[0]] + rest;
      assert r == SnakeToCamel(s);
      forall i | 0 <= i < |r| ensures !SnakeAt(r, i) {
        if i > 0 { assert SnakeAt(r, i) == SnakeAt(rest, i - 1); }
      }
      assert s == [s[0]] + s[1..];
      assert r == s <==> rest == s[1..];
      assert IsCamel(s) <==> IsCamel(s[1..]) by {
        if IsCamel(s[1..]) {
          forall i | 0 <= i < |s| ensures !SnakeAt(s, i) {
            if i > 0 { assert !SnakeAt(s[1..], i - 1); }
          }
        }
        if IsCamel(s) {
          forall i | 0 <= i < |s| - 1 ensures !SnakeAt(s[1..], i) {
            assert !SnakeAt(s, i + 1);
          }
        }
      }
    }
  }

  /** `a + b` may be cut between `a` and `b`: no match straddles the cut. */
  predicate CleanCut(a: string, b: string) {
    |a| == 0 || !IsSeparator(a[|a| - 1]) || |b| == 0 || !IsLowerAscii(b[0])
  }

  /** The conversion works piece by piece: a string may be cut anywhere except between a
      separator and a lower-case letter (where a match would straddle the cut). */
  lemma {:induction false} SnakeToCamelAppend(a: string, b: string)
    requires CleanCut(a, b)
    ensures SnakeToCamel(a + b) == SnakeToCamel(a) + SnakeToCamel(b)
    decreases |a|
  {
    if |a| == 0 {
      assert a + b == b;
    } else {
      var n := MatchLength(a);
      CleanCutHead(a, b);
      SnakeToCamelAppend(a[n..], b);
      SnakeToCamelStep(a + b);
      SnakeToCamelStep(a);
    }
  }

  /** The first scan step over `a + b` stays inside `a` and leaves a clean cut. */
  lemma CleanCutHead(a: string, b: string)
    requires |a| > 0 && CleanCut(a, b)
    ensures MatchLength(a + b) == MatchLength(a) <= |a|
    ensures (a + b)[..MatchLength(a)] == a[..MatchLength(a)]
    ensures (a + b)[MatchLength(a)..] == a[MatchLength(a)..] + b
    ensures CleanCut(a[MatchLength(a)..], b)
  {
    var ab := a + b;
    if |a| == 1 {
      assert !SnakeAt(a, 0);
      assert !SnakeAt(ab, 0);
    } else {
      assert ab[0] == a[0] && ab[1] == a[1];
    }
    var n := MatchLength(a);
    assert |a[n..]| > 0 ==> a[n..][|a[n..]| - 1] == a[|a| - 1];
  }

  /** How many characters the scan consumes at the start of `s`: a whole match, or one. */
  function MatchLength(s: string): nat {
    if SnakeAt(s, 0) then 2 else 1
  }

  /** What the scan emits for those characters. */
  function Emitted(s: string): string
    requires |s| > 0
  {
    if SnakeAt(s, 0) then [ToUpperAscii(s[1])] else [s[0]]
  }

  lemma SnakeToCamelStep(s: string)
    requires |s| > 0
    ensures MatchLength(s) <= |s|
    ensures SnakeToCamel(s) == Emitted(s[..MatchLength(s)]) + SnakeToCamel(s[MatchLength(s)..])
  {
    var n := MatchLength(s);
    assert SnakeAt(s[..n], 0) == SnakeAt(s, 0);
  }

  /** `sanitizeFieldNames`: the two fixed renames of axis-id keys. */
  function SanitizeFieldName(key: string): (r: string)
    ensures key == "xAxisId" ==> r == "xAxisID"
    ensures key == "yAxisId" ==> r == "yAxisID"
    ensures r != "xAxisId" && r != "yAxisId"
    ensures key != "xAxisId" && key != "yAxisId" ==> r == key
    ensures |r| == |key|
  {
    if key == "xAxisId" then "xAxisID"
    else if key == "yAxisId" then "yAxisID"
    else key
  }

  /** The option key a dataset attribute name becomes. */
  function OptionKey(name: string): (key: string)
    ensures |key| <= |name|
    ensures |name| > 0 ==> |key| > 0
  {
    SanitizeFieldName(SnakeToCamel(name))
  }

  /** The host attributes that become chart options. */
  predicate IsHostOption(name: string) {
    StartsWith(name, "plugins") || StartsWith(name, "interaction")
    || StartsWith(name, "scales") || name == "responsive"
  }

  /** The dataset attributes that become dataset options. */
  predicate IsDatasetOption(name: string) {
    !StartsWith(name, "data") && !StartsWith(name, ":")
  }

  /** One match: the separator is dropped and the letter upper-cased. */
  lemma SnakeToCamelMatch(sep: char, c: char, rest: string)
    requires IsSeparator(sep) && IsLowerAscii(c) && IsCamel(rest)
    ensures SnakeToCamel([sep, c] + rest) == [ToUpperAscii(c)] + rest
  {
    assert ([sep, c] + rest)[2..] == rest;
    SnakeToCamelIsCamel(rest);
  }

  /** A separator right before a match stays: only the separator next to the letter is
      consumed (`a--b` becomes `a-B`). */
  lemma SeparatorBeforeMatch(first: char, sep: char, c: char, rest: string)
    requires IsSeparator(first) && IsSeparator(sep) && IsLowerAscii(c) && IsCamel(rest)
    ensures SnakeToCamel([first, sep, c] + rest) == [first, ToUpperAscii(c)] + rest
  {
    SnakeToCamelAppend([first], [sep, c] + rest);
    SnakeToCamelMatch(sep, c, rest);
    assert [first, sep, c] + rest == [first] + ([sep, c] + rest);
  }

  /** An axis-id attribute in dash or snake case converts to the camel-case key. */
  lemma AxisIdCamel(axis: char, sep: char)
    requires IsSeparator(sep) && !IsSeparator(axis)
    ensures SnakeToCamel([axis, sep, 'a', 'x', 'i', 's', sep, 'i', 'd']) == [axis, 'A', 'x', 'i', 's', 'I', 'd']
  {
    var tail: string := ['x', 'i', 's'];
    var last: string := ['d'];
    assert IsCamel(tail) && IsCamel(last);
    SnakeToCamelMatch(sep, 'a', tail);
    SnakeToCamelMatch(sep, 'i', last);
    assert IsCamel([axis]);
    SnakeToCamelAppend([sep, 'a'] + tail, [sep, 'i'] + last);
    SnakeToCamelAppend([axis], [sep, 'a'] + tail + ([sep, 'i'] + last));
    assert [axis, sep, 'a', 'x', 'i', 's', sep, 'i', 'd'] == [axis] + ([sep, 'a'] + tail + ([sep, 'i'] + last));
  }

  /** Dash-case and snake-case axis-id attributes both surface under the library's key. */
  lemma AxisIdAttributeKeys()
    ensures OptionKey("x-axis-id") == "xAxisID" && OptionKey("x_axis_id") == "xAxisID"
    ensures OptionKey("y-axis-id") == "yAxisID" && OptionKey("y_axis_id") == "yAxisID"
  {
    AxisIdCamel('x', '-');
    AxisIdCamel('x', '_');
    AxisIdCamel('y', '-');
    AxisIdCamel('y', '_');
  }
}
