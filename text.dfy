/** String operations the source takes from Python's `str`: ASCII case
    mapping (`lower`, `upper`), substring test (`in`), `join`, `split` on one
    character and `strip`. */
module Text {

  /** `str.lower` on one character; only ASCII letters are mapped. */
  function LowerChar(c: char): char
  {
    if 'A' <= c <= 'Z' then (c as int + 32) as char else c
  }

  /** `str.upper` on one character; only ASCII letters are mapped. */
  function UpperChar(c: char): char
  {
    if 'a' <= c <= 'z' then (c as int - 32) as char else c
  }

  function Lower(s: string): (r: string)
    ensures |r| == |s|
    ensures forall i :: 0 <= i < |s| ==> r[i] == LowerChar(s[i])
  {
    seq(|s|, i requires 0 <= i < |s| => LowerChar(s[i]))
  }

  function Upper(s: string): (r: string)
    ensures |r| == |s|
    ensures forall i :: 0 <= i < |s| ==> r[i] == UpperChar(s[i])
    ensures forall i :: 0 <= i < |s| ==> !('a' <= r[i] <= 'z')
  {
    seq(|s|, i requires 0 <= i < |s| => UpperChar(s[i]))
  }

  /** Upper-casing twice is upper-casing once. */
  lemma UpperIdempotent(s: string)
    ensures Upper(Upper(s)) == Upper(s)
  {
    var u := Upper(s);
    assert forall i :: 0 <= i < |u| ==> UpperChar(u[i]) == u[i];
  }

  /** `q` occurs in `s` starting at index `i`. */
  ghost predicate OccursAt(q: string, s: string, i: int)
  {
    0 <= i && i + |q| <= |s| && s[i..i + |q|] == q
  }

  /** Python's `q in s` for strings. */
  function Contains(q: string, s: string): (r: bool)
    ensures r <==> exists i :: OccursAt(q, s, i)
    decreases |s|
  {
    if |q| > |s| then
      assert forall i :: !OccursAt(q, s, i);
      false
    else if s[..|q|] == q then
      assert OccursAt(q, s, 0);
      true
    else
      var rest := Contains(q, s[1..]);
      assert forall i :: OccursAt(q, s[1..], i) <==> OccursAt(q, s, i + 1) by {
        forall i ensures OccursAt(q, s[1..], i) <==> OccursAt(q, s, i + 1) {
          if 0 <= i && i + |q| <= |s| - 1 {
            assert s[1..][i..i + |q|] == s[i + 1..i + 1 + |q|];
          }
        }
      }
      assert !OccursAt(q, s, 0);
      assert forall i :: OccursAt(q, s, i) ==> i >= 1 && OccursAt(q, s[1..], i - 1);
      rest
  }

  /** A prefix of `y` stays a prefix behind any `x`. */
  lemma PrefixBehind(x: string, y: string, h: string)
    requires |h| <= |y| && y[..|h|] == h
    ensures |x + h| <= |x + y| && (x + y)[..|x + h|] == x + h
  {
    assert (x + y)[..|x + h|] == x + y[..|h|];
  }

  /** String concatenation is associative. */
  lemma AppendAssociates(x: string, y: string, z: string)
    ensures x + y + z == x + (y + z)
  {
  }

  /** The empty string occurs in every string. */
  lemma EmptyOccursEverywhere(s: string)
    ensures Contains("", s)
  {
    assert OccursAt("", s, 0);
  }

  /** `sep.join(parts)`. */
  function Join(sep: string, parts: seq<string>): string
  {
    if |parts| == 0 then ""
    else if |parts| == 1 then parts[0]
    else parts[0] + sep + Join(sep, parts[1..])
  }

  /** `s.split(c)`: the pieces between occurrences of `c`, always at least one. */
  function Split(c: char, s: string): (r: seq<string>)
    ensures |r| >= 1
  {
    if |s| == 0 then [""]
    else
      var rest := Split(c, s[1..]);
      if s[0] == c then [""] + rest
      else [[s[0]] + rest[0]] + rest[1..]
  }

  lemma {:induction false} SplitNoSeparator(c: char, s: string)
    requires c !in s
    ensures Split(c, s) == [s]
  {
    if |s| > 0 {
      SplitNoSeparator(c, s[1..]);
      assert [s[0]] + s[1..] == s;
    }
  }

  lemma {:induction false} SplitAppend(c: char, a: string, b: string)
    requires c !in a
    ensures Split(c, a + [c] + b) == [a] + Split(c, b)
  {
    if |a| == 0 {
      assert a + [c] + b == [c] + b;
      assert ([c] + b)[1..] == b;
    } else {
      assert (a + [c] + b)[1..] == a[1..] + [c] + b;
      SplitAppend(c, a[1..], b);
      assert [a[0]] + a[1..] == a;
    }
  }

  /** Joining pieces that do not contain the separator and splitting the
      result gives the pieces back: every piece becomes one line. */
  lemma {:induction false} SplitJoin(c: char, parts: seq<string>)
    requires |parts| >= 1
    requires forall i :: 0 <= i < |parts| ==> c !in parts[i]
    ensures Split(c, Join([c], parts)) == parts
  {
    if |parts| == 1 {
      SplitNoSeparator(c, parts[0]);
    } else {
      SplitJoin(c, parts[1..]);
      SplitAppend(c, parts[0], Join([c], parts[1..]));
      assert [parts[0]] + parts[1..] == parts;
    }
  }

  /** The characters below 0x80 that Python's `str.strip` removes: the six
      C white-space characters and the separators 0x1C to 0x1F. */
  predicate IsSpace(c: char)
  {
    c == ' ' || c == '\t' || c == '\n' || c == '\r' || c == '\U{000B}' || c == '\U{000C}'
    || ('\U{001C}' <= c <= '\U{001F}')
  }

  /** `s.lstrip()`. */
  function TrimStart(s: string): string
  {
    if |s| > 0 && IsSpace(s[0]) then TrimStart(s[1..]) else s
  }

  /** `s.rstrip()`. */
  function TrimEnd(s: string): string
  {
    if |s| > 0 && IsSpace(s[|s| - 1]) then TrimEnd(s[..|s| - 1]) else s
  }

  /** `s.strip()`. */
  function Strip(s: string): string
  {
    TrimEnd(TrimStart(s))
  }

  /** Left stripping drops exactly the leading white space. */
  lemma {:induction false} TrimStartSpec(s: string)
    ensures var r := TrimStart(s);
      && |r| <= |s| && r == s[|s| - |r|..]
      && (forall i :: 0 <= i < |s| - |r| ==> IsSpace(s[i]))
      && (r == [] || !IsSpace(r[0]))
  {
    if |s| > 0 && IsSpace(s[0]) {
      TrimStartSpec(s[1..]);
    }
  }

  /** Right stripping drops exactly the trailing white space. */
  lemma {:induction false} TrimEndSpec(s: string)
    ensures var r := TrimEnd(s);
      && |r| <= |s| && r == s[..|r|]
      && (forall i :: |r| <= i < |s| ==> IsSpace(s[i]))
      && (r == [] || !IsSpace(r[|r| - 1]))
  {
    if |s| > 0 && IsSpace(s[|s| - 1]) {
      TrimEndSpec(s[..|s| - 1]);
    }
  }

  /** Stripping gives a slice of `s` with no white space at either end,
      and removes only white space. */
  lemma StripSpec(s: string)
    ensures var r := Strip(s);
      && (r == [] || (!IsSpace(r[0]) && !IsSpace(r[|r| - 1])))
      && (exists a, b :: 0 <= a <= b <= |s| && r == s[a..b]
            && (forall i :: 0 <= i < a ==> IsSpace(s[i]))
            && (forall i :: b <= i < |s| ==> IsSpace(s[i])))
  {
    var t := TrimStart(s);
    TrimStartSpec(s);
    TrimEndSpec(t);
    var r := TrimEnd(t);
    var a := |s| - |t|;
    var b := a + |r|;
    assert r == s[a..b];
    if r != [] {
      assert t[0] == r[0];
    }
  }
}
