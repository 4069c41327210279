/** The string functions of Go's standard library the components use, on sequences of characters. */
module Text {
  import opened Base

  // ---------------------------------------------------------------- white space

  /** unicode.IsSpace. */
  predicate IsSpace(c: char) {
    || c in {'\t', '\n', '\U{000B}', '\U{000C}', '\r', ' ', '\U{0085}', '\U{00A0}'}
    || c in {'\U{1680}', '\U{2028}', '\U{2029}', '\U{202F}', '\U{205F}', '\U{3000}'}
    || '\U{2000}' <= c <= '\U{200A}'
  }

  /** The characters of Unicode's property White_Space, by number. */
  lemma SpacesAre(c: char)
    ensures var n := c as int;
            IsSpace(c) <==>
              9 <= n <= 13 || 8192 <= n <= 8202 || n in {32, 133, 160, 5760, 8232, 8233, 8239, 8287, 12288}
  {}

  function TrimLeft(s: string): string {
    if s != [] && IsSpace(s[0]) then TrimLeft(s[1..]) else s
  }

  function TrimRight(s: string): string {
    if s != [] && IsSpace(s[|s| - 1]) then TrimRight(s[..|s| - 1]) else s
  }

  /** strings.TrimSpace. */
  function TrimSpace(s: string): string {
    TrimRight(TrimLeft(s))
  }

  predicate Trimmed(s: string) {
    s != [] ==> !IsSpace(s[0]) && !IsSpace(s[|s| - 1])
  }

  lemma {:induction false} TrimRightEnds(s: string)
    ensures var t := TrimRight(s);
            t <= s && (t != [] ==> !IsSpace(t[|t| - 1]))
  {
    if s != [] && IsSpace(s[|s| - 1]) {
      TrimRightEnds(s[..|s| - 1]);
    }
  }

  predicate AllSpace(s: string) {
    forall k | 0 <= k < |s| :: IsSpace(s[k])
  }

  lemma {:induction false} TrimRightTakes(s: string)
    ensures var t := TrimRight(s); t <= s && AllSpace(s[|t|..])
  {
    if s != [] && IsSpace(s[|s| - 1]) {
      var init, t := s[..|s| - 1], TrimRight(s);
      TrimRightTakes(init);
      assert s[|t|..] == init[|t|..] + [s[|s| - 1]];
    }
  }

  lemma {:induction false} TrimLeftTakes(s: string)
    ensures var t := TrimLeft(s);
            && |t| <= |s| && t == s[|s| - |t|..] && AllSpace(s[..|s| - |t|]) && (t != [] ==> !IsSpace(t[0]))
  {
    if s != [] && IsSpace(s[0]) {
      TrimLeftTakes(s[1..]);
      var t := TrimLeft(s);
      assert s[..|s| - |t|] == [s[0]] + s[1..][..|s| - 1 - |t|];
    } else {
      assert s[..0] == [];
    }
  }

  /** TrimSpace takes white space off both ends, all of it and nothing else. */
  lemma TrimSpaceTrims(s: string) returns (left: string, right: string)
    ensures s == left + TrimSpace(s) + right && AllSpace(left) && AllSpace(right) && Trimmed(TrimSpace(s))
  {
    hide IsSpace, TrimLeft, TrimRight;
    var t := TrimLeft(s);
    TrimLeftTakes(s);
    TrimRightTakes(t);
    TrimRightEnds(t);
    left, right := s[..|s| - |t|], t[|TrimRight(t)|..];
    assert s == left + t && t == TrimRight(t) + right;
  }

  lemma TrimmedStays(s: string)
    requires Trimmed(s)
    ensures TrimSpace(s) == s
  {}

  lemma TrimSpaceAfterBlank(s: string)
    requires Trimmed(s)
    ensures TrimSpace(" " + s) == s
  {
    var blank := " " + s;
    assert IsSpace(blank[0]) && blank[1..] == s;
    assert TrimLeft(blank) == TrimLeft(s);
  }

  // ---------------------------------------------------------------- search, split, join

  /** strings.Index, with the length of `s` + 1 standing for -1. */
  function Index(s: string, pattern: string): (i: nat)
    ensures i <= |s| ==> pattern <= s[i..]
    ensures i <= |s| + 1
  {
    if pattern <= s then 0 else if s == [] then 1 else 1 + Index(s[1..], pattern)
  }

  /** It is the first place. */
  lemma {:induction false} IndexIsFirst(s: string, pattern: string, k: nat)
    requires k < Index(s, pattern) && k <= |s|
    ensures !(pattern <= s[k..])
  {
    if k > 0 {
      IndexIsFirst(s[1..], pattern, k - 1);
      assert s[1..][k - 1..] == s[k..];
    } else {
      assert s[0..] == s;
    }
  }

  predicate Found(s: string, pattern: string) {
    Index(s, pattern) <= |s|
  }

  lemma FoundSplits(s: string, pattern: string) returns (before: string, rest: string)
    requires Found(s, pattern)
    ensures s == before + pattern + rest
  {
    var i := Index(s, pattern);
    before, rest := s[..i], s[i..][|pattern|..];
    hide Index;
    assert s[i..] == pattern + rest;
  }

  lemma FoundBetween(before: string, pattern: string, rest: string)
    ensures Found(before + pattern + rest, pattern)
  {
    hide Index;
    var s := before + pattern + rest;
    assert s[|before|..] == pattern + rest;
    if Index(s, pattern) > |s| {
      IndexIsFirst(s, pattern, |before|);
    }
  }

  /** `pattern` is found right after a prefix none of whose characters can start it. */
  lemma {:induction false} IndexAfter(prefix: string, pattern: string, rest: string)
    requires pattern != [] && pattern[0] !in prefix
    ensures Index(prefix + pattern + rest, pattern) == |prefix|
  {
    var s := prefix + pattern + rest;
    if prefix == [] {
      assert s == pattern + rest;
    } else {
      assert s[0] == prefix[0];
      assert s[1..] == prefix[1..] + pattern + rest;
      IndexAfter(prefix[1..], pattern, rest);
    }
  }

  /** strings.Split(s, "\n"). */
  function SplitLines(s: string): (lines: seq<string>)
    ensures lines != []
  {
    if s == [] then [[]]
    else
      var rest := SplitLines(s[1..]);
      if s[0] == '\n' then [[]] + rest else [[s[0]] + rest[0]] + rest[1..]
  }

  function JoinLines(lines: seq<string>): string {
    if lines == [] then []
    else if |lines| == 1 then lines[0]
    else lines[0] + "\n" + JoinLines(lines[1..])
  }

  lemma {:induction false} SplitLine(line: string, rest: string)
    requires '\n' !in line
    ensures SplitLines(line) == [line]
    ensures SplitLines(line + "\n" + rest) == [line] + SplitLines(rest)
  {
    var s := line + "\n" + rest;
    if line == [] {
      assert s[1..] == rest;
    } else {
      SplitLine(line[1..], rest);
      assert s[1..] == line[1..] + "\n" + rest;
      assert [line[0]] + line[1..] == line;
    }
  }

  lemma {:induction false} SplitJoin(lines: seq<string>)
    requires lines != [] && forall k | 0 <= k < |lines| :: '\n' !in lines[k]
    ensures SplitLines(JoinLines(lines)) == lines
  {
    if |lines| == 1 {
      SplitLine(lines[0], []);
    } else {
      SplitJoin(lines[1..]);
      SplitLine(lines[0], JoinLines(lines[1..]));
    }
  }

  // ---------------------------------------------------------------- decimal numbers

  predicate IsDigit(c: char) {
    '0' <= c <= '9'
  }

  function DigitOf(d: nat): (c: char)
    requires d < 10
    ensures IsDigit(c) && DigitValue(c) == d && c == "0123456789"[d]
  {
    '0' + d as char
  }

  function DigitValue(c: char): (d: nat)
    requires IsDigit(c)
    ensures d < 10
  {
    c as int - '0' as int
  }

  predicate AllDigits(s: string) {
    forall k | 0 <= k < |s| :: IsDigit(s[k])
  }

  /** What "%d" prints for a non-negative number. */
  function Decimal(n: nat): (s: string)
    ensures s != [] && AllDigits(s)
  {
    if n < 10 then [DigitOf(n)] else Decimal(n / 10) + [DigitOf(n % 10)]
  }

  /** The number a string of digits denotes, whatever its size. */
  function DecimalValue(s: string): nat
    requires AllDigits(s)
  {
    if s == [] then 0 else 10 * DecimalValue(s[..|s| - 1]) + DigitValue(s[|s| - 1])
  }

  lemma {:induction false} DecimalRoundTrip(n: nat)
    ensures DecimalValue(Decimal(n)) == n
  {
    if n >= 10 {
      DecimalRoundTrip(n / 10);
      assert Decimal(n)[..|Decimal(n)| - 1] == Decimal(n / 10);
    } else {
      assert Decimal(n)[..0] == [];
    }
  }

  /** And no digit of it is superfluous: this is the one way to write the number. */
  lemma {:induction false} DecimalIsShort(n: nat)
    ensures n < 10 ==> |Decimal(n)| == 1
    ensures n > 0 ==> Decimal(n)[0] != '0'
  {
    if n >= 10 {
      DecimalIsShort(n / 10);
    }
  }

  // ---------------------------------------------------------------- byte order and sorting

  /** The order of sort.Strings. */
  predicate StringLeq(a: string, b: string) {
    if a == [] then true
    else if b == [] then false
    else a[0] < b[0] || (a[0] == b[0] && StringLeq(a[1..], b[1..]))
  }

  /** It is decided where two strings first differ, and a prefix comes first. */
  lemma {:induction false} StringLeqExactly(a: string, b: string, p: nat)
    requires p <= |a| && p <= |b| && a[..p] == b[..p]
    ensures p == |a| ==> StringLeq(a, b)
    ensures p < |a| && p < |b| && a[p] != b[p] ==> (StringLeq(a, b) <==> a[p] < b[p])
  {
    if p > 0 {
      assert a[1..][..p - 1] == a[..p][1..] && b[1..][..p - 1] == b[..p][1..];
      assert a[0] == a[..p][0] && b[0] == b[..p][0];
      StringLeqExactly(a[1..], b[1..], p - 1);
    }
  }

  lemma {:induction false} StringLeqTotal(a: string, b: string)
    ensures StringLeq(a, b) || StringLeq(b, a)
    ensures StringLeq(a, b) && StringLeq(b, a) ==> a == b
  {
    if a != [] && b != [] {
      StringLeqTotal(a[1..], b[1..]);
      assert a == [a[0]] + a[1..] && b == [b[0]] + b[1..];
    }
  }

  lemma {:induction false} StringLeqTrans(a: string, b: string, c: string)
    requires StringLeq(a, b) && StringLeq(b, c)
    ensures StringLeq(a, c)
  {
    if a != [] && b != [] && c != [] {
      if StringLeq(a[1..], b[1..]) && StringLeq(b[1..], c[1..]) {
        StringLeqTrans(a[1..], b[1..], c[1..]);
      }
    }
  }

  /** Strictly ascending: sorted and without repetition. */
  ghost predicate Ascending(s: seq<string>) {
    forall i, k | 0 <= i < k < |s| :: s[i] != s[k] && StringLeq(s[i], s[k])
  }

  /** The keys of a map, sorted: the only ascending list of them. */
  method SortedKeys(keys: set<string>) returns (sorted: seq<string>)
    ensures Ascending(sorted)
    ensures forall s :: s in sorted <==> s in keys
  {
    sorted := [];
    var todo := keys;
    while todo != {}
      invariant todo <= keys && Ascending(sorted)
      invariant forall s :: s in sorted <==> s in keys - todo
      decreases todo
    {
      var next :| next in todo;
      todo := todo - {next};
      sorted := Insert(sorted, next);
    }
  }

  method Insert(s: seq<string>, x: string) returns (t: seq<string>)
    requires Ascending(s) && x !in s
    ensures Ascending(t)
    ensures forall y :: y in t <==> y in s || y == x
  {
    var i := 0;
    while i < |s| && StringLeq(s[i], x)
      invariant 0 <= i <= |s|
      invariant forall k | 0 <= k < i :: StringLeq(s[k], x)
    {
      i := i + 1;
    }
    t := s[..i] + [x] + s[i..];
    forall k | i <= k < |s| ensures StringLeq(x, s[k]) {
      StringLeqTotal(s[i], x);
      if i < k {
        StringLeqTrans(x, s[i], s[k]);
      }
    }
  }

  lemma {:induction false} AscendingUnique(s: seq<string>, t: seq<string>)
    requires Ascending(s) && Ascending(t) && forall x :: x in s <==> x in t
    ensures s == t
  {
    assert (s != [] ==> s[0] in t) && (t != [] ==> t[0] in s);
    if s != [] {
      assert s[0] in t;
      assert t[0] in s;
      StringLeqTotal(s[0], t[0]);
      assert s[0] == t[0];
      forall x ensures x in s[1..] <==> x in t[1..] {
        assert s == [s[0]] + s[1..] && t == [t[0]] + t[1..];
        assert x in s <==> x == s[0] || x in s[1..];
        assert x in t <==> x == t[0] || x in t[1..];
      }
      AscendingUnique(s[1..], t[1..]);
      assert s == [s[0]] + s[1..] && t == [t[0]] + t[1..];
    }
  }
}
