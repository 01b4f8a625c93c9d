/**
 * The parts of JavaScript's String, Array and Number behaviour that the
 * generator relies on: `includes`, `toLowerCase`, `trim`, `replace(/\s+/g, ..)`,
 * `split(' ')[0]`, `Array.prototype.find`, the `||` default on strings,
 * number-to-string conversion, and the exceptions the runtime raises.
 */
module Js {
  import opened Wrappers

  /** An exception raised by the runtime. */
  datatype JsError = ReferenceError(identifier: string) | TypeError(message: string)

  /** The `message` property of an exception, as V8 words it. */
  function Message(e: JsError): string {
    match e
    case ReferenceError(id) => id + " is not defined"
    case TypeError(m) => m
  }

  // ---------------------------------------------------------------------------
  // String.prototype.includes

  predicate StartsWith(s: string, prefix: string) {
    |prefix| <= |s| && s[..|prefix|] == prefix
  }

  lemma StartsWithAppend3(prefix: string, b: string, c: string)
    ensures StartsWith(prefix + b + c, prefix)
  {
    assert (prefix + b + c)[..|prefix|] == prefix;
  }

  /** `s.includes(t)`, scanning `s` from the left. */
  predicate Includes(s: string, t: string)
    decreases |s|
  {
    StartsWith(s, t) || (|s| > 0 && Includes(s[1..], t))
  }

  /** `t` occurs in `s` at index `i`: the positional reading of `includes`. */
  predicate OccursAt(s: string, t: string, i: int) {
    0 <= i && i + |t| <= |s| && s[i..i + |t|] == t
  }

  /** The scanning definition agrees with the positional one. */
  lemma {:induction false} IncludesIffOccurs(s: string, t: string)
    ensures Includes(s, t) <==> exists i :: OccursAt(s, t, i)
    decreases |s|
  {
    assert OccursAt(s, t, 0) <==> StartsWith(s, t);
    if |s| > 0 {
      IncludesIffOccurs(s[1..], t);
      forall i | OccursAt(s[1..], t, i)
        ensures OccursAt(s, t, i + 1)
      {
        assert s[1..][i..i + |t|] == s[i + 1..i + 1 + |t|];
      }
      forall i | OccursAt(s, t, i) && i > 0
        ensures OccursAt(s[1..], t, i - 1)
      {
        assert s[1..][i - 1..i - 1 + |t|] == s[i..i + |t|];
      }
    } else {
      forall i | OccursAt(s, t, i) ensures i == 0 { }
    }
  }

  /** An occurrence at a known position is a match for `includes`. */
  lemma IncludesAt(s: string, t: string, i: nat)
    requires i + |t| <= |s| && s[i..i + |t|] == t
    ensures Includes(s, t)
  {
    IncludesIffOccurs(s, t);
    assert OccursAt(s, t, i);
  }

  /** A string in which some character of `t` never appears does not include `t`. */
  lemma {:induction false} AbsentCharNotIncluded(s: string, t: string, k: nat)
    requires k < |t| && t[k] !in s
    ensures !Includes(s, t)
    decreases |s|
  {
    if |s| > 0 {
      AbsentCharNotIncluded(s[1..], t, k);
    }
  }

  // ---------------------------------------------------------------------------
  // String.prototype.toLowerCase, for Basic Latin and Latin-1

  function LowerChar(c: char): char {
    if 'A' <= c <= 'Z' || ('\U{C0}' <= c <= '\U{DE}' && c != '\U{D7}') then
      (c as int + 32) as char
    else
      c
  }

  function ToLower(s: string): (r: string)
    ensures |r| == |s|
    ensures forall i :: 0 <= i < |s| ==> r[i] == LowerChar(s[i])
  {
    if s == [] then [] else [LowerChar(s[0])] + ToLower(s[1..])
  }

  /** A string with no upper-case letter is its own lower case. */
  lemma LowerOfNoUpper(s: string)
    requires forall i :: 0 <= i < |s| ==> !('A' <= s[i] <= 'Z') && !('\U{C0}' <= s[i] <= '\U{DE}')
    ensures ToLower(s) == s
  {
  }

  /** A lower-case ASCII letter that occurs in neither case in `s` does not
      occur in its lower case. */
  lemma LowerAbsent(s: string, c: char)
    requires 'a' <= c <= 'z' && c !in s && (c as int - 32) as char !in s
    ensures c !in ToLower(s)
  {
    var l := ToLower(s);
    forall i | 0 <= i < |l| ensures l[i] != c {
      assert s[i] != c && s[i] != (c as int - 32) as char;
    }
  }

  lemma ToLowerAppend(a: string, b: string)
    ensures ToLower(a + b) == ToLower(a) + ToLower(b)
  {
  }

  // ---------------------------------------------------------------------------
  // White space: the characters that `\s` and `trim` treat as white space
  // (ECMAScript WhiteSpace and LineTerminator)

  predicate IsWhitespace(c: char) {
    ('\t' <= c <= '\r') || c == ' ' || c == '\U{A0}' || c == '\U{1680}'
    || ('\U{2000}' <= c <= '\U{200A}') || ('\U{2028}' <= c <= '\U{2029}')
    || c == '\U{202F}' || c == '\U{205F}' || c == '\U{3000}' || c == '\U{FEFF}'
  }

  predicate AllWhitespace(s: string) {
    forall i :: 0 <= i < |s| ==> IsWhitespace(s[i])
  }

  /** No string occurs twice in the list. */
  predicate DistinctNames(names: seq<string>) {
    forall i, j :: 0 <= i < j < |names| ==> names[i] != names[j]
  }

  predicate NoWhitespace(s: string) {
    forall i :: 0 <= i < |s| ==> !IsWhitespace(s[i])
  }

  /** Lower-casing neither creates nor removes white space. */
  lemma LowerKeepsWhitespace(c: char)
    ensures IsWhitespace(LowerChar(c)) == IsWhitespace(c)
  {
  }

  // ---------------------------------------------------------------------------
  // String.prototype.trim

  /** Drops the leading white space: the result is the suffix after it. */
  function TrimStart(s: string): (r: string)
    ensures |r| <= |s| && r == s[|s| - |r|..]
    ensures AllWhitespace(s[..|s| - |r|])
    ensures r == [] || !IsWhitespace(r[0])
    decreases |s|
  {
    if s != [] && IsWhitespace(s[0]) then
      var r := TrimStart(s[1..]);
      assert s[..|s| - |r|] == [s[0]] + s[1..][..|s| - 1 - |r|];
      r
    else
      s
  }

  /** Drops the trailing white space: the result is the prefix before it. */
  function TrimEnd(s: string): (r: string)
    ensures |r| <= |s| && r == s[..|r|]
    ensures AllWhitespace(s[|r|..])
    ensures r == [] || !IsWhitespace(r[|r| - 1])
    decreases |s|
  {
    if s != [] && IsWhitespace(s[|s| - 1]) then
      var r := TrimEnd(s[..|s| - 1]);
      assert s[|r|..] == s[..|s| - 1][|r|..] + [s[|s| - 1]];
      r
    else
      s
  }

  /** `s.trim()`: drops the white space at both ends. */
  function Trim(s: string): (r: string)
    ensures r == [] || (!IsWhitespace(r[0]) && !IsWhitespace(r[|r| - 1]))
  {
    var a := TrimStart(s);
    var r := TrimEnd(a);
    assert r != [] ==> r[0] == a[0];
    r
  }

  /** The trimmed string sits in `s` between a leading and a trailing run of
      white space. */
  lemma TrimSplits(s: string)
    ensures exists i :: 0 <= i && i + |Trim(s)| <= |s| && Trim(s) == s[i..i + |Trim(s)|]
                        && AllWhitespace(s[..i]) && AllWhitespace(s[i + |Trim(s)|..])
  {
    var a := TrimStart(s);
    var r := TrimEnd(a);
    var i := |s| - |a|;
    assert r == Trim(s);
    assert a == s[i..];
    assert r == a[..|r|];
    assert r == s[i..i + |r|];
    assert s[i + |r|..] == a[|r|..];
    assert AllWhitespace(s[..i]) && AllWhitespace(s[i + |r|..]);
  }

  /** Trimming twice is trimming once. */
  lemma TrimIdempotent(s: string)
    ensures Trim(Trim(s)) == Trim(s)
  {
  }

  // ---------------------------------------------------------------------------
  // s.replace(/\s+/g, rep)

  /** Replaces every maximal run of white space in `s` by `rep`. */
  function ReplaceWhitespaceRuns(s: string, rep: string): (r: string)
    decreases |s|
  {
    if s == [] then []
    else if IsWhitespace(s[0]) then
      var rest := TrimStart(s);
      assert |rest| < |s|;
      rep + ReplaceWhitespaceRuns(rest, rep)
    else
      [s[0]] + ReplaceWhitespaceRuns(s[1..], rep)
  }

  /** With a replacement free of white space, no white space is left. */
  lemma {:induction false} ReplaceLeavesNoWhitespace(s: string, rep: string)
    requires NoWhitespace(rep)
    ensures NoWhitespace(ReplaceWhitespaceRuns(s, rep))
    decreases |s|
  {
    if s == [] {
    } else if IsWhitespace(s[0]) {
      ReplaceLeavesNoWhitespace(TrimStart(s), rep);
    } else {
      ReplaceLeavesNoWhitespace(s[1..], rep);
    }
  }

  /** A string without white space is left as it is. */
  lemma {:induction false} ReplaceKeepsWord(s: string, rep: string)
    requires NoWhitespace(s)
    ensures ReplaceWhitespaceRuns(s, rep) == s
    decreases |s|
  {
    if s != [] {
      ReplaceKeepsWord(s[1..], rep);
    }
  }

  /** A word, then a run of white space, then text that does not begin with
      white space: the whole run becomes one `rep`. */
  lemma {:induction false} ReplaceRunOnce(word: string, run: string, rest: string, rep: string)
    requires NoWhitespace(word) && run != [] && AllWhitespace(run)
    requires rest == [] || !IsWhitespace(rest[0])
    ensures ReplaceWhitespaceRuns(word + run + rest, rep)
            == word + rep + ReplaceWhitespaceRuns(rest, rep)
  {
    assert word + run + rest == word + (run + rest);
    ReplaceAfterWord(word, run + rest, rep);
    ReplaceRunAtStart(run, rest, rep);
  }

  /** A leading word without white space is copied unchanged. */
  lemma {:induction false} ReplaceAfterWord(word: string, x: string, rep: string)
    requires NoWhitespace(word)
    ensures ReplaceWhitespaceRuns(word + x, rep) == word + ReplaceWhitespaceRuns(x, rep)
    decreases |word|
  {
    if word == [] {
      assert word + x == x;
    } else {
      var w0, w1 := word[0], word[1..];
      assert word + x == [w0] + (w1 + x);
      ReplaceWordStep(w0, w1 + x, rep);
      ReplaceAfterWord(w1, x, rep);
      assert [w0] + w1 == word;
    }
  }

  lemma {:induction false} ReplaceRunAtStart(run: string, rest: string, rep: string)
    requires run != [] && AllWhitespace(run)
    requires rest == [] || !IsWhitespace(rest[0])
    ensures ReplaceWhitespaceRuns(run + rest, rep) == rep + ReplaceWhitespaceRuns(rest, rep)
  {
    assert (run + rest)[0] == run[0];
    TrimStartOfRun(run, rest);
  }

  lemma {:induction false} ReplaceWordStep(c: char, tail: string, rep: string)
    requires !IsWhitespace(c)
    ensures ReplaceWhitespaceRuns([c] + tail, rep) == [c] + ReplaceWhitespaceRuns(tail, rep)
  {
    assert ([c] + tail)[1..] == tail;
  }

  lemma {:induction false} TrimStartOfRun(run: string, rest: string)
    requires AllWhitespace(run)
    requires rest == [] || !IsWhitespace(rest[0])
    ensures TrimStart(run + rest) == rest
    decreases |run|
  {
    if run != [] {
      assert (run + rest)[1..] == run[1..] + rest;
      TrimStartOfRun(run[1..], rest);
    } else {
      assert run + rest == rest;
    }
  }

  /** Lower-casing commutes with the replacement when `rep` is lower case. */
  lemma {:induction false} ReplaceOfLower(s: string, rep: string)
    requires ToLower(rep) == rep
    ensures ToLower(ReplaceWhitespaceRuns(ToLower(s), rep)) == ReplaceWhitespaceRuns(ToLower(s), rep)
    decreases |s|
  {
    var l := ToLower(s);
    if s == [] {
    } else if IsWhitespace(l[0]) {
      var rest := TrimStart(l);
      var k := |s| - |rest|;
      assert rest == ToLower(s[k..]);
      ReplaceOfLower(s[k..], rep);
      ToLowerAppend(rep, ReplaceWhitespaceRuns(rest, rep));
    } else {
      assert l[1..] == ToLower(s[1..]);
      ReplaceOfLower(s[1..], rep);
      ToLowerAppend([l[0]], ReplaceWhitespaceRuns(l[1..], rep));
    }
  }

  // ---------------------------------------------------------------------------
  // s.split(' ')[0]

  /** The text before the first space character (U+0020), or all of `s`. */
  function FirstWord(s: string): (r: string)
    ensures StartsWith(s, r) && ' ' !in r
    ensures |r| == |s| || s[|r|] == ' '
  {
    if s == [] || s[0] == ' ' then [] else [s[0]] + FirstWord(s[1..])
  }

  /** A word without spaces is its own first word, whatever follows the next space. */
  lemma {:induction false} FirstWordOf(w: string, rest: string)
    requires ' ' !in w
    ensures FirstWord(w) == w
    ensures FirstWord(w + " " + rest) == w
    decreases |w|
  {
    if w != [] {
      assert w[0] != ' ' && ' ' !in w[1..];
      assert (w + " " + rest)[1..] == w[1..] + " " + rest;
      FirstWordOf(w[1..], rest);
    } else {
      assert w + " " + rest == " " + rest;
    }
  }

  /** `items.join(sep)`. */
  function Join(items: seq<string>, sep: string): string {
    if items == [] then []
    else if |items| == 1 then items[0]
    else items[0] + sep + Join(items[1..], sep)
  }

  /** `v || fallback` where `v` is a string, `null` or `undefined`: the empty
      string is falsy too. */
  function OrElse(v: Option<string>, fallback: string): string {
    if v.Some? && v.value != "" then v.value else fallback
  }

  // ---------------------------------------------------------------------------
  // Array.prototype.find

  /** The index of the first element satisfying `p`, if any. */
  function FindIndex<T>(s: seq<T>, p: T -> bool): (r: Option<nat>)
    ensures r.Some? ==> r.value < |s| && p(s[r.value])
                        && forall j :: 0 <= j < r.value ==> !p(s[j])
    ensures r.None? ==> forall j :: 0 <= j < |s| ==> !p(s[j])
    decreases |s|
  {
    if s == [] then None
    else if p(s[0]) then Some(0)
    else
      match FindIndex(s[1..], p)
      case None => None
      case Some(k) => Some(k + 1)
  }

  /** `s.find(p)`: the first element satisfying `p`, or `undefined`. */
  function Find<T>(s: seq<T>, p: T -> bool): Option<T> {
    match FindIndex(s, p)
    case None => None
    case Some(k) => Some(s[k])
  }

  // ---------------------------------------------------------------------------
  // Number to string (as in a template literal), for non-negative integers

  function DigitChar(d: nat): char
    requires d < 10
  {
    ('0' as int + d) as char
  }

  predicate IsDigits(s: string) {
    forall i :: 0 <= i < |s| ==> '0' <= s[i] <= '9'
  }

  /** Decimal digits of `n`, most significant first, with no leading zero. */
  function NatToString(n: nat): (r: string)
    ensures r != [] && IsDigits(r)
    ensures r[0] == '0' ==> r == "0"
    decreases n
  {
    if n < 10 then [DigitChar(n)] else NatToString(n / 10) + [DigitChar(n % 10)]
  }

  /** The value of a string of decimal digits: the inverse of `NatToString`. */
  function ParseDecimal(s: string): nat
    requires IsDigits(s)
    decreases |s|
  {
    if s == [] then 0 else 10 * ParseDecimal(s[..|s| - 1]) + (s[|s| - 1] as int - '0' as int)
  }

  lemma {:induction false} ParseNatToString(n: nat)
    ensures ParseDecimal(NatToString(n)) == n
    decreases n
  {
    if n >= 10 {
      var s := NatToString(n);
      assert s[..|s| - 1] == NatToString(n / 10);
      ParseNatToString(n / 10);
    }
  }

  /** Different numbers print differently. */
  lemma NatToStringInjective(a: nat, b: nat)
    ensures NatToString(a) == NatToString(b) ==> a == b
  {
    ParseNatToString(a);
    ParseNatToString(b);
  }
}
