/** Python semantics the analyzer relies on: None, exceptions as results, truthiness of
    optional strings, str.split and str.join with a one-character separator,
    str.replace('\n', '<br>') and the decimal rendering of integers. */
module Py {

  /** A Python value that may be None. */
  datatype Option<+T> = None | Some(value: T)

  /** The outcome of a Python expression that returns a value or raises an exception
      whose str() is `error`. */
  datatype Result<+T> = Ok(value: T) | Err(error: string)

  /** The outcome of a Python statement run only for its effect. */
  datatype Outcome = Pass | Fail(error: string)

  /** Python truthiness of an optional string (as returned by os.getenv): None and ""
      are false, every other string is true. */
  predicate Truthy(s: Option<string>)
  {
    s.Some? && s.value != ""
  }

  /** Number of occurrences of `c` in `s`. */
  function Count(s: string, c: char): nat
  {
    if s == [] then 0 else (if s[0] == c then 1 else 0) + Count(s[1..], c)
  }

  /** Python's `s.split(sep)` for a one-character separator: one more part than there
      are separators, none of them holding the separator; `"".split(",")` is `[""]`. */
  function Split(s: string, sep: char): (parts: seq<string>)
    ensures |parts| == Count(s, sep) + 1
    ensures forall i :: 0 <= i < |parts| ==> sep !in parts[i]
    decreases |s|
  {
    if s == [] then [""]
    else
      var rest := Split(s[1..], sep);
      if s[0] == sep then [""] + rest
      else [[s[0]] + rest[0]] + rest[1..]
  }

  /** Python's `sep.join(parts)`. */
  function Join(sep: string, parts: seq<string>): string
  {
    if |parts| == 0 then ""
    else if |parts| == 1 then parts[0]
    else parts[0] + sep + Join(sep, parts[1..])
  }

  /** Joining the parts of a split with the same separator gives back the string. */
  lemma {:induction false} JoinOfSplit(s: string, sep: char)
    ensures Join([sep], Split(s, sep)) == s
    decreases |s|
  {
    if s != [] {
      JoinOfSplit(s[1..], sep);
      var rest := Split(s[1..], sep);
      if s[0] == sep {
        assert Split(s, sep) == [""] + rest;
        assert ([""] + rest)[1..] == rest;
      } else {
        assert Split(s, sep) == [[s[0]] + rest[0]] + rest[1..];
        if |rest| == 1 {
          assert Join([sep], rest) == rest[0];
        } else {
          assert Join([sep], rest) == rest[0] + [sep] + Join([sep], rest[1..]);
          assert ([[s[0]] + rest[0]] + rest[1..])[1..] == rest[1..];
        }
      }
    }
  }

  /** Splitting `w + t` where `w` holds no separator extends the first part of `t`'s split. */
  lemma {:induction false} SplitSeparatorFreePrefix(w: string, t: string, sep: char)
    requires sep !in w
    ensures Split(w + t, sep) == [w + Split(t, sep)[0]] + Split(t, sep)[1..]
    decreases |w|
  {
    if w != [] {
      SplitSeparatorFreePrefix(w[1..], t, sep);
      assert (w + t)[1..] == w[1..] + t;
      assert (w + t)[0] == w[0];
      assert [w[0]] + (w[1..] + Split(t, sep)[0]) == w + Split(t, sep)[0];
    } else {
      assert w + t == t;
      assert w + Split(t, sep)[0] == Split(t, sep)[0];
      assert Split(t, sep) == [Split(t, sep)[0]] + Split(t, sep)[1..];
    }
  }

  /** Splitting a join of separator-free parts gives back the parts. */
  lemma {:induction false} SplitOfJoin(parts: seq<string>, sep: char)
    requires |parts| >= 1
    requires forall i :: 0 <= i < |parts| ==> sep !in parts[i]
    ensures Split(Join([sep], parts), sep) == parts
    decreases |parts|
  {
    if |parts| == 1 {
      SplitSeparatorFreePrefix(parts[0], "", sep);
      assert parts[0] + "" == parts[0];
    } else {
      var tail := parts[1..];
      SplitOfJoin(tail, sep);
      var t := [sep] + Join([sep], tail);
      assert Join([sep], parts) == parts[0] + t;
      assert t[1..] == Join([sep], tail);
      assert Split(t, sep) == [""] + tail;
      SplitSeparatorFreePrefix(parts[0], t, sep);
      assert parts[0] + "" == parts[0];
    }
  }

  /** The decimal digit for `d`. */
  function Digit(d: nat): (c: char)
    requires d < 10
    ensures '0' <= c <= '9'
  {
    (48 + d) as char
  }

  /** The number a string of decimal digits denotes, most significant digit first. */
  function DigitsValue(s: string): nat
    requires forall i :: 0 <= i < |s| ==> '0' <= s[i] <= '9'
  {
    if s == [] then 0 else DigitsValue(s[..|s| - 1]) * 10 + ((s[|s| - 1] as int) - 48)
  }

  /** Python's `str(n)` for a natural number: decimal digits, most significant first,
      denoting `n` and without leading zeros. */
  function NaturalDecimal(n: nat): (r: string)
    ensures |r| >= 1
    ensures forall i :: 0 <= i < |r| ==> '0' <= r[i] <= '9'
    ensures DigitsValue(r) == n
    ensures r[0] == '0' ==> r == "0"
  {
    if n < 10 then [Digit(n)]
    else
      var r := NaturalDecimal(n / 10) + [Digit(n % 10)];
      assert r[..|r| - 1] == NaturalDecimal(n / 10);
      r
  }

  /** Python's `str(n)` for an integer: the digits of |n|, after a minus sign when n is
      negative. */
  function Decimal(n: int): (r: string)
    ensures |r| >= 1 && '\n' !in r
    ensures n >= 0 ==> (forall i :: 0 <= i < |r| ==> '0' <= r[i] <= '9') && DigitsValue(r) == n
    ensures n < 0 ==>
      |r| >= 2 && r[0] == '-' && (forall i :: 1 <= i < |r| ==> '0' <= r[i] <= '9') &&
      DigitsValue(r[1..]) == -n
  {
    if n < 0 then
      var r := "-" + NaturalDecimal(-n);
      assert r[1..] == NaturalDecimal(-n);
      r
    else NaturalDecimal(n)
  }

  /** Python's `s.replace('\n', '<br>')`: every newline becomes a `<br>` tag, the result
      holds no newline, and a text without newlines is returned unchanged. */
  function ReplaceNewlines(s: string): (r: string)
    ensures '\n' !in r
    ensures '\n' !in s ==> r == s
    ensures |r| == |s| + 3 * Count(s, '\n')
  {
    if s == [] then ""
    else (if s[0] == '\n' then "<br>" else [s[0]]) + ReplaceNewlines(s[1..])
  }

  /** Python's `r.replace('<br>', '\n')`: the inverse direction of ReplaceNewlines. */
  function RestoreNewlines(r: string): string
    decreases |r|
  {
    if r == [] then ""
    else if |r| >= 4 && r[..4] == "<br>" then "\n" + RestoreNewlines(r[4..])
    else [r[0]] + RestoreNewlines(r[1..])
  }

  /** A `<br>` tag starts at position `i` of `s`. */
  predicate BreakTagAt(s: string, i: nat)
  {
    i + 4 <= |s| && s[i..i + 4] == "<br>"
  }

  /** `s` holds no `<br>` tag of its own. */
  predicate NoBreakTag(s: string)
  {
    forall i: nat :: i < |s| ==> !BreakTagAt(s, i)
  }

  /** Replacing newlines leaves every prefix free of '<' and '\n' where it found it. */
  lemma {:induction false} ReplacedPrefix(t: string, p: string)
    requires '<' !in p
    requires |p| <= |ReplaceNewlines(t)| && ReplaceNewlines(t)[..|p|] == p
    ensures |p| <= |t| && t[..|p|] == p
    decreases |p|
  {
    if p != [] {
      var r := ReplaceNewlines(t);
      assert t != [];
      assert r[0] == p[0] != '<';
      assert t[0] != '\n';
      assert r == [t[0]] + ReplaceNewlines(t[1..]);
      assert ReplaceNewlines(t[1..])[..|p| - 1] == r[1..|p|] == p[1..];
      ReplacedPrefix(t[1..], p[1..]);
      assert t[..|p|] == [t[0]] + t[1..][..|p| - 1];
    }
  }

  /** A `<br>` at the start of a replaced text that does not start with a newline was
      already in the text. */
  lemma TagKeptByReplace(s: string)
    ensures s != [] && s[0] != '\n' && BreakTagAt(ReplaceNewlines(s), 0) ==> BreakTagAt(s, 0)
  {
    var r := ReplaceNewlines(s);
    if s != [] && s[0] != '\n' && BreakTagAt(r, 0) {
      var rest := ReplaceNewlines(s[1..]);
      assert r == [s[0]] + rest;
      var p := "br>";
      assert |p| == 3 && '<' !in p;
      assert rest[..3] == r[1..4];
      assert r[1..4] == r[..4][1..];
      assert rest[..3] == p;
      ReplacedPrefix(s[1..], p);
      assert s[..4] == [s[0]] + s[1..][..3];
    }
  }

  /** Restoring the `<br>` tags of a replaced text gives back the original text, provided
      it held no `<br>` tag of its own. */
  lemma {:induction false} RestoreReplaced(s: string)
    requires NoBreakTag(s)
    ensures RestoreNewlines(ReplaceNewlines(s)) == s
    decreases |s|
  {
    if s != [] {
      var rest := ReplaceNewlines(s[1..]);
      assert NoBreakTag(s[1..]) by {
        forall i: nat
          ensures !BreakTagAt(s[1..], i)
        {
          assert !BreakTagAt(s, i + 1);
          if i + 4 <= |s[1..]| {
            assert s[1..][i..i + 4] == s[i + 1..i + 5];
          }
        }
      }
      RestoreReplaced(s[1..]);
      if s[0] == '\n' {
        var r := "<br>" + rest;
        assert ReplaceNewlines(s) == r;
        assert r[..4] == "<br>" && r[4..] == rest;
      } else {
        var r := [s[0]] + rest;
        assert ReplaceNewlines(s) == r;
        if BreakTagAt(r, 0) {
          TagKeptByReplace(s);
          assert false;
        }
        assert !BreakTagAt(r, 0) ==> !(|r| >= 4 && r[..4] == "<br>");
        assert r[1..] == rest;
      }
    }
  }
}
