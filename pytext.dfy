/** The few Python string and list operations the modelled code relies
    on: `str.split(sep)` with a one-character separator, `str.split(sep,
    1)`, `str.replace` of one character, ASCII `upper`/`lower`,
    `int(text)` for plain decimal text, and `list.remove`. */
module PyText {
  import opened Wrappers

  /** `abs` on integers. */
  function Abs(x: int): (r: nat)
    ensures r == x || r == -x
  {
    if x < 0 then -x else x
  }

  /** `sum` of a list of floats, added from the front as Python does; the
      definition peels the last element. */
  function Sum(xs: seq<real>): real
    decreases |xs|
  {
    if xs == [] then 0.0 else Sum(xs[..|xs| - 1]) + xs[|xs| - 1]
  }

  /** Index of the first occurrence of `c` in `s`. */
  function IndexOf<T(==)>(s: seq<T>, c: T): (i: nat)
    requires c in s
    ensures i < |s| && s[i] == c && c !in s[..i]
  {
    if s[0] == c then 0 else 1 + IndexOf(s[1..], c)
  }

  /** Inverse of `Split`: the parts glued back together with `d` between them. */
  function Join(parts: seq<string>, d: char): string
    requires |parts| >= 1
  {
    if |parts| == 1 then parts[0] else parts[0] + [d] + Join(parts[1..], d)
  }

  /** Python's `s.split(d)`: always at least one piece, empty pieces kept
      (`"a|".split("|") == ["a", ""]`, `"".split("|") == [""]`). */
  function Split(s: string, d: char): (parts: seq<string>)
    ensures |parts| >= 1
    ensures forall i :: 0 <= i < |parts| ==> d !in parts[i]
    ensures Join(parts, d) == s
    decreases |s|
  {
    if d !in s then [s]
    else
      var i := IndexOf(s, d);
      assert s == s[..i] + [d] + s[i + 1..];
      [s[..i]] + Split(s[i + 1..], d)
  }

  /** Every character of a part occurs in the joined text. */
  lemma {:induction false} JoinContains(parts: seq<string>, d: char, i: nat)
    requires i < |parts|
    ensures forall c :: c in parts[i] ==> c in Join(parts, d)
    decreases |parts|
  {
    if |parts| > 1 && i > 0 {
      JoinContains(parts[1..], d, i - 1);
    }
  }

  /** A character in no part, other than the separator, is not in the
      joined text. */
  lemma {:induction false} JoinNotContains(parts: seq<string>, d: char, c: char)
    requires |parts| >= 1 && c != d
    requires forall i :: 0 <= i < |parts| ==> c !in parts[i]
    ensures c !in Join(parts, d)
    decreases |parts|
  {
    if |parts| > 1 {
      JoinNotContains(parts[1..], d, c);
    }
  }

  /** Splitting a joined sequence of separator-free parts gives the parts back. */
  lemma {:induction false} SplitJoin(parts: seq<string>, d: char)
    requires |parts| >= 1
    requires forall i :: 0 <= i < |parts| ==> d !in parts[i]
    ensures Split(Join(parts, d), d) == parts
    decreases |parts|
  {
    if |parts| > 1 {
      SplitCons(parts[0], Join(parts[1..], d), d);
      SplitJoin(parts[1..], d);
      assert parts == [parts[0]] + parts[1..];
    }
  }

  /** Text up to the first separator is the first piece. */
  lemma SplitCons(a: string, rest: string, d: char)
    requires d !in a
    ensures Split(a + [d] + rest, d) == [a] + Split(rest, d)
  {
    var s := a + [d] + rest;
    IndexOfPrefix(a, [d] + rest, d);
    assert a + ([d] + rest) == s;
    var i := IndexOf(s, d);
    assert s[..i] == a;
    assert s[i + 1..] == rest;
  }

  lemma {:induction false} IndexOfPrefix(a: string, b: string, c: char)
    requires c !in a && |b| > 0 && b[0] == c
    ensures c in a + b && IndexOf(a + b, c) == |a|
    decreases |a|
  {
    assert (a + b)[|a|] == c;
    if |a| > 0 {
      assert (a + b)[1..] == a[1..] + b;
      IndexOfPrefix(a[1..], b, c);
    }
  }

  /** Splitting text that ends with the separator adds one empty piece:
      `"a|b|".split("|") == "a|b".split("|") + [""]`. */
  lemma SplitTrailing(s: string, d: char)
    ensures Split(s + [d], d) == Split(s, d) + [[]]
  {
    var parts := Split(s, d);
    JoinTrailing(parts, d);
    SplitJoin(parts + [[]], d);
  }

  lemma {:induction false} JoinTrailing(parts: seq<string>, d: char)
    requires |parts| >= 1
    ensures Join(parts + [[]], d) == Join(parts, d) + [d]
    decreases |parts|
  {
    if |parts| > 1 {
      assert (parts + [[]])[1..] == parts[1..] + [[]];
      JoinTrailing(parts[1..], d);
    }
  }

  /** `s.split(d, 1)` when `d` occurs in `s`: the text before the first
      `d` and everything after it, which may contain `d` again. */
  function SplitFirst(s: string, d: char): (r: (string, string))
    requires d in s
    ensures s == r.0 + [d] + r.1 && d !in r.0
  {
    var i := IndexOf(s, d);
    assert s == s[..i] + [d] + s[i + 1..];
    (s[..i], s[i + 1..])
  }

  /** The first separator is the one after a separator-free head. */
  lemma SplitFirstOf(a: string, b: string, d: char)
    requires d !in a
    ensures d in a + [d] + b && SplitFirst(a + [d] + b, d) == (a, b)
  {
    var s := a + [d] + b;
    IndexOfPrefix(a, [d] + b, d);
    assert a + ([d] + b) == s;
    assert s[..|a|] == a && s[|a| + 1..] == b;
  }

  /** `s.replace(old, new)` for one-character arguments. */
  function ReplaceChar(s: string, from: char, to: char): (r: string)
    ensures |r| == |s|
    ensures forall i :: 0 <= i < |s| ==> r[i] == (if s[i] == from then to else s[i])
  {
    seq(|s|, i requires 0 <= i < |s| => if s[i] == from then to else s[i])
  }

  /** Replacing a character that does not occur changes nothing, and a
      second replacement of the same character finds nothing left to do. */
  lemma ReplaceCharAbsent(s: string, from: char, to: char)
    requires from !in s
    ensures ReplaceChar(s, from, to) == s
  {
  }

  lemma ReplaceCharIdempotent(s: string, from: char, to: char)
    requires from != to
    ensures from !in ReplaceChar(s, from, to)
    ensures ReplaceChar(ReplaceChar(s, from, to), from, to) == ReplaceChar(s, from, to)
  {
  }

  function UpperChar(c: char): char {
    if 'a' <= c <= 'z' then (c as int - 'a' as int + 'A' as int) as char else c
  }

  function LowerChar(c: char): char {
    if 'A' <= c <= 'Z' then (c as int - 'A' as int + 'a' as int) as char else c
  }

  /** `s.upper()` restricted to ASCII letters. */
  function Upper(s: string): (r: string)
    ensures |r| == |s|
    ensures forall i :: 0 <= i < |s| ==> r[i] == UpperChar(s[i])
  {
    seq(|s|, i requires 0 <= i < |s| => UpperChar(s[i]))
  }

  /** `s.lower()` restricted to ASCII letters. */
  function Lower(s: string): (r: string)
    ensures |r| == |s|
    ensures forall i :: 0 <= i < |s| ==> r[i] == LowerChar(s[i])
  {
    seq(|s|, i requires 0 <= i < |s| => LowerChar(s[i]))
  }

  /** `s.upper()` changes nothing in text it has already upper-cased. */
  lemma UpperIdempotent(s: string)
    ensures Upper(Upper(s)) == Upper(s)
  {
  }

  /** Python's `a < b` on strings: lexicographic by code point. */
  predicate StrLt(a: string, b: string)
    decreases |a|
  {
    if |a| == 0 then |b| > 0
    else if |b| == 0 then false
    else if a[0] != b[0] then a[0] < b[0]
    else StrLt(a[1..], b[1..])
  }

  lemma {:induction false} StrLtIrreflexive(a: string)
    ensures !StrLt(a, a)
    decreases |a|
  {
    if |a| > 0 {
      StrLtIrreflexive(a[1..]);
    }
  }

  lemma {:induction false} StrLtTransitive(a: string, b: string, c: string)
    requires StrLt(a, b) && StrLt(b, c)
    ensures StrLt(a, c)
    decreases |a|
  {
    if |a| > 0 && |b| > 0 && |c| > 0 && a[0] == b[0] && b[0] == c[0] {
      StrLtTransitive(a[1..], b[1..], c[1..]);
    }
  }

  /** Distinct strings are always ordered one way or the other. */
  lemma {:induction false} StrLtTotal(a: string, b: string)
    requires a != b
    ensures StrLt(a, b) || StrLt(b, a)
    decreases |a|
  {
    if |a| > 0 && |b| > 0 && a[0] == b[0] {
      assert a == [a[0]] + a[1..] && b == [b[0]] + b[1..];
      StrLtTotal(a[1..], b[1..]);
    }
  }

  predicate IsDigit(c: char) {
    '0' <= c <= '9'
  }

  /** Value of a non-empty run of decimal digits. */
  function DigitsValue(s: string): (n: nat)
    requires forall i :: 0 <= i < |s| ==> IsDigit(s[i])
    decreases |s|
  {
    if |s| == 0 then 0
    else
      assert IsDigit(s[|s| - 1]);
      DigitsValue(s[..|s| - 1]) * 10 + (s[|s| - 1] as int - '0' as int)
  }

  /** `int(s)` for text made of an optional sign and one or more decimal
      digits; anything else is the `ValueError` Python raises (as `None`). */
  function ParseInt(s: string): (r: Option<int>)
    ensures r.Some? ==> |s| > 0
    ensures r.Some? <==>
      var start := if |s| > 0 && (s[0] == '+' || s[0] == '-') then 1 else 0;
      start < |s| && forall i :: start <= i < |s| ==> IsDigit(s[i])
  {
    var neg := |s| > 0 && s[0] == '-';
    var body := if |s| > 0 && (s[0] == '-' || s[0] == '+') then s[1..] else s;
    if |body| > 0 && forall i :: 0 <= i < |body| ==> IsDigit(body[i]) then
      Some(if neg then -(DigitsValue(body) as int) else DigitsValue(body))
    else None
  }

  /** `str(n)` for a natural number: its decimal digits, most significant
      first. */
  function Digits(n: nat): (s: string)
    ensures |s| > 0 && forall i :: 0 <= i < |s| ==> IsDigit(s[i])
    decreases n
  {
    var d := [('0' as int + n % 10) as char];
    if n < 10 then d else Digits(n / 10) + d
  }

  /** Reading back the digits of `n` gives `n`. */
  lemma {:induction false} DigitsValueOf(n: nat)
    ensures DigitsValue(Digits(n)) == n
    decreases n
  {
    var s := Digits(n);
    assert s[..|s| - 1] == (if n < 10 then [] else Digits(n / 10));
    if n >= 10 {
      DigitsValueOf(n / 10);
    }
  }

  /** `int(str(n)) == n` and `int("-" + str(n)) == -n`. */
  lemma ParseIntDigits(n: nat)
    ensures ParseInt(Digits(n)) == Some(n)
    ensures ParseInt("-" + Digits(n)) == Some(-(n as int))
  {
    DigitsValueOf(n);
    var s := Digits(n);
    var t := "-" + s;
    assert t[0] == '-' && t[1..] == s;
    assert ParseInt(t) == Some(-(DigitsValue(s) as int));
  }

  /** A leading zero does not change the value of a digit run. */
  lemma {:induction false} DigitsValueLeadingZero(t: string)
    requires forall i :: 0 <= i < |t| ==> IsDigit(t[i])
    ensures DigitsValue("0" + t) == DigitsValue(t)
    decreases |t|
  {
    if |t| > 0 {
      var u := t[..|t| - 1];
      assert ("0" + t)[..|t|] == "0" + u;
      DigitsValueLeadingZero(u);
    }
  }

  /** `int("+" + t) == int(t)`, `int("-" + t) == -int(t)` and
      `int("0" + t) == int(t)` for text `t` that has no sign of its own;
      so, with `ParseIntDigits`, "+7" and "007" both read as 7. */
  lemma ParseIntSignsAndZeros(t: string)
    requires |t| > 0 && t[0] != '+' && t[0] != '-'
    ensures ParseInt("+" + t) == ParseInt(t)
    ensures ParseInt("-" + t) == if ParseInt(t).Some? then Some(-ParseInt(t).value) else None
    ensures ParseInt("0" + t) == ParseInt(t)
  {
    assert ("+" + t)[1..] == t && ("-" + t)[1..] == t;
    var z := "0" + t;
    assert forall i :: 1 <= i < |z| ==> z[i] == t[i - 1];
    if forall i :: 0 <= i < |t| ==> IsDigit(t[i]) {
      DigitsValueLeadingZero(t);
    } else {
      var j :| 0 <= j < |t| && !IsDigit(t[j]);
      assert !IsDigit(z[j + 1]);
    }
  }

  /** `xs.remove(x)` on a list holding `x`: the first element equal to
      `x` is taken out.  Without one, Python raises and the list stays as
      it is. */
  function RemoveFirst<T(==)>(xs: seq<T>, x: T): (r: seq<T>)
    ensures x !in xs ==> r == xs
    ensures x in xs ==> exists i :: 0 <= i < |xs| && xs[i] == x && x !in xs[..i] && r == xs[..i] + xs[i + 1..]
    ensures x in xs ==> multiset(r) == multiset(xs) - multiset{x}
  {
    if x !in xs then xs
    else
      var i := IndexOf(xs, x);
      assert xs == xs[..i] + [x] + xs[i + 1..];
      xs[..i] + xs[i + 1..]
  }
}
