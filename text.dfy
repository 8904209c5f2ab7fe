/** Python string operations on `seq<char>`, restricted to ASCII: whitespace is what
    `str.isspace()` accepts below 128, line boundaries are the ASCII boundaries of
    `str.splitlines()`, and lower-casing only maps 'A'..'Z'. */
module Text {

  /** `str.isspace()` on ASCII: tab, LF, VT, FF, CR, the separators 28..31, and space. */
  predicate IsSpace(c: char) {
    c == ' ' || (9 <= c as int <= 13) || (28 <= c as int <= 31)
  }

  /** The ASCII line boundaries of `str.splitlines()`: LF, VT, FF, CR and 28..30. */
  predicate IsLineBreak(c: char) {
    (10 <= c as int <= 13) || (28 <= c as int <= 30)
  }

  predicate AllSpace(s: string) {
    forall i :: 0 <= i < |s| ==> IsSpace(s[i])
  }

  /** `str.lstrip()` */
  function LStrip(s: string): (r: string)
    ensures |r| <= |s| && r == s[|s| - |r|..]
    ensures r == [] || !IsSpace(r[0])
    ensures AllSpace(s[..|s| - |r|])
  {
    if |s| > 0 && IsSpace(s[0]) then
      var r := LStrip(s[1..]);
      assert s[1..][..|s[1..]| - |r|] == s[1..|s| - |r|];
      r
    else s
  }

  /** `str.rstrip()` */
  function RStrip(s: string): (r: string)
    ensures r <= s
    ensures r == [] || !IsSpace(r[|r| - 1])
    ensures AllSpace(s[|r|..])
  {
    if |s| > 0 && IsSpace(s[|s| - 1]) then
      var r := RStrip(s[..|s| - 1]);
      assert s[|r|..] == s[..|s| - 1][|r|..] + [s[|s| - 1]];
      r
    else s
  }

  /** `str.strip()`: a contiguous piece of `s` that neither begins nor ends with whitespace. */
  function Strip(s: string): (r: string)
    ensures |r| <= |s|
    ensures r == [] || (!IsSpace(r[0]) && !IsSpace(r[|r| - 1]))
  {
    RStrip(LStrip(s))
  }

  /** A string strips to nothing exactly when every character is whitespace. */
  lemma StripEmptyIff(s: string)
    ensures Strip(s) == [] <==> AllSpace(s)
  {
    var t := LStrip(s);
    assert s == s[..|s| - |t|] + t;
    if t != [] {
      assert !IsSpace(t[0]);
    } else {
      assert s[..|s| - |t|] == s;
    }
  }

  /** Stripping keeps only characters of the string itself. */
  lemma StripWithin(s: string, c: char)
    requires c !in s
    ensures c !in Strip(s)
  {
    var t := LStrip(s);
    assert c !in t;
    assert RStrip(t) == t[..|RStrip(t)|];
  }

  /** Stripping twice is stripping once. */
  lemma StripIdempotent(s: string)
    ensures Strip(Strip(s)) == Strip(s)
  {
    var r := Strip(s);
    if r != [] {
      assert LStrip(r) == r;
      assert RStrip(r) == r;
    }
  }

  function LowerChar(c: char): char {
    if 'A' <= c <= 'Z' then (c as int + 32) as char else c
  }

  /** `str.lower()` on ASCII letters. */
  function Lower(s: string): (r: string)
    ensures |r| == |s|
  {
    seq(|s|, i requires 0 <= i < |s| => LowerChar(s[i]))
  }

  /** `str.replace(old, new)` for single characters. */
  function ReplaceChar(s: string, from: char, to: char): (r: string)
    ensures |r| == |s|
  {
    seq(|s|, i requires 0 <= i < |s| => if s[i] == from then to else s[i])
  }

  /** `sep.join(xs)` */
  function Join(sep: string, xs: seq<string>): string {
    if |xs| == 0 then ""
    else if |xs| == 1 then xs[0]
    else xs[0] + sep + Join(sep, xs[1..])
  }

  /** `"".join(xs)` */
  function Concat(xs: seq<string>): string {
    if |xs| == 0 then "" else xs[0] + Concat(xs[1..])
  }

  lemma ConcatAppend(xs: seq<string>, ys: seq<string>)
    ensures Concat(xs + ys) == Concat(xs) + Concat(ys)
  {
    if xs != [] {
      assert (xs + ys)[0] == xs[0];
      assert (xs + ys)[1..] == xs[1..] + ys;
      ConcatAppend(xs[1..], ys);
    } else {
      assert xs + ys == ys;
    }
  }

  /** Joining with one more element appends the separator and that element. */
  lemma JoinSnoc(sep: string, xs: seq<string>, x: string)
    requires xs != []
    ensures Join(sep, xs + [x]) == Join(sep, xs) + sep + x
  {
    if |xs| > 1 {
      assert (xs + [x])[1..] == xs[1..] + [x];
      JoinSnoc(sep, xs[1..], x);
    } else {
      assert xs + [x] == [xs[0], x];
      assert [xs[0], x][1..] == [x];
    }
  }

  /** A join of non-empty pieces is empty exactly when there are no pieces. */
  lemma JoinEmptyIff(sep: string, xs: seq<string>)
    requires forall i :: 0 <= i < |xs| ==> xs[i] != ""
    ensures Join(sep, xs) == "" <==> xs == []
  {
    if |xs| > 1 {
      assert |Join(sep, xs)| >= |xs[0]|;
    }
  }

  /** `str.split(sep)` for a one-character separator: there is always at least one piece. */
  function SplitOn(s: string, sep: char): (r: seq<string>)
    ensures |r| >= 1
  {
    if |s| == 0 then [""]
    else
      var rest := SplitOn(s[1..], sep);
      if s[0] == sep then [""] + rest else [[s[0]] + rest[0]] + rest[1..]
  }

  /** No piece of a split contains the separator. */
  lemma {:induction false} SplitOnPieces(s: string, sep: char)
    ensures forall p :: p in SplitOn(s, sep) ==> sep !in p
  {
    if |s| > 0 {
      SplitOnPieces(s[1..], sep);
      var rest := SplitOn(s[1..], sep);
      assert rest[0] in rest;
      forall p | p in rest[1..] ensures p in rest { }
    }
  }

  /** Joining the pieces of a split with the separator gives back the string. */
  lemma {:induction false} JoinSplitOn(s: string, sep: char)
    ensures Join([sep], SplitOn(s, sep)) == s
  {
    if |s| > 0 {
      JoinSplitOn(s[1..], sep);
      var rest := SplitOn(s[1..], sep);
      if s[0] == sep {
        assert ([""] + rest)[1..] == rest;
      } else {
        var r := [[s[0]] + rest[0]] + rest[1..];
        if |rest| > 1 {
          assert r[1..] == rest[1..];
          assert Join([sep], rest) == rest[0] + [sep] + Join([sep], rest[1..]);
        }
      }
    }
  }

  /** Splitting at a separator that is placed between two strings splits each side on its own. */
  lemma {:induction false} SplitOnAround(a: string, b: string, sep: char)
    ensures SplitOn(a + [sep] + b, sep) == SplitOn(a, sep) + SplitOn(b, sep)
  {
    if |a| == 0 {
      assert a + [sep] + b == [sep] + b;
      assert ([sep] + b)[1..] == b;
    } else {
      assert (a + [sep] + b)[1..] == a[1..] + [sep] + b;
      SplitOnAround(a[1..], b, sep);
    }
  }

  /** A string without the separator splits into itself. */
  lemma {:induction false} SplitOnNone(s: string, sep: char)
    requires sep !in s
    ensures SplitOn(s, sep) == [s]
  {
    if |s| > 0 {
      assert sep !in s[1..] by {
        forall k | 0 <= k < |s[1..]| ensures s[1..][k] != sep { assert s[1..][k] == s[k + 1]; }
      }
      SplitOnNone(s[1..], sep);
      assert [s[0]] + s[1..] == s;
    }
  }

  /** Splitting a join of separator-free pieces gives back the pieces. */
  lemma {:induction false} SplitOnJoin(sep: char, xs: seq<string>)
    requires xs != [] && forall i :: 0 <= i < |xs| ==> sep !in xs[i]
    ensures SplitOn(Join([sep], xs), sep) == xs
  {
    SplitOnNone(xs[0], sep);
    if |xs| > 1 {
      SplitOnJoin(sep, xs[1..]);
      SplitOnAround(xs[0], Join([sep], xs[1..]), sep);
      assert [xs[0]] + xs[1..] == xs;
    }
  }

  /** The pieces of each string, split on their own, one after another. */
  function SplitEach(xs: seq<string>, sep: char): seq<string> {
    if xs == [] then [] else SplitOn(xs[0], sep) + SplitEach(xs[1..], sep)
  }

  /** Splitting a join splits each joined string on its own. */
  lemma {:induction false} SplitOnJoinEach(sep: char, xs: seq<string>)
    requires xs != []
    ensures SplitOn(Join([sep], xs), sep) == SplitEach(xs, sep)
  {
    if |xs| == 1 {
      assert xs[1..] == [];
    } else {
      SplitOnJoinEach(sep, xs[1..]);
      SplitOnAround(xs[0], Join([sep], xs[1..]), sep);
    }
  }

  /** Closing every string with a terminator and concatenating is joining with it and
      closing the last one. */
  lemma {:induction false} ConcatTerminated(t: string, xs: seq<string>, ys: seq<string>)
    requires xs != [] && |ys| == |xs|
    requires forall i :: 0 <= i < |xs| ==> ys[i] == xs[i] + t
    ensures Concat(ys) == Join(t, xs) + t
  {
    if |xs| == 1 {
      assert ys[1..] == [];
    } else {
      ConcatTerminated(t, xs[1..], ys[1..]);
      AppendAssoc(xs[0], t, Join(t, xs[1..]) + t);
      AppendAssoc(xs[0] + t, Join(t, xs[1..]), t);
    }
  }

  /** Joining onto a non-empty list puts the separator after the new head. */
  lemma JoinCons(sep: string, x: string, xs: seq<string>)
    requires xs != []
    ensures Join(sep, [x] + xs) == x + sep + Join(sep, xs)
  {
    assert ([x] + xs)[1..] == xs;
  }

  /** `[x.strip() for x in lines if x.strip()]` */
  function NonBlankStripped(lines: seq<string>): (r: seq<string>)
    ensures |r| <= |lines|
    ensures forall i :: 0 <= i < |r| ==> r[i] != ""
  {
    if lines == [] then []
    else if Strip(lines[0]) == "" then NonBlankStripped(lines[1..])
    else [Strip(lines[0])] + NonBlankStripped(lines[1..])
  }

  /** The list is a homomorphism over the lines: a line contributes its stripped text when
      that is not blank and nothing otherwise, and lines contribute in order. */
  lemma {:induction false} NonBlankStrippedAppend(a: seq<string>, b: seq<string>)
    ensures NonBlankStripped(a + b) == NonBlankStripped(a) + NonBlankStripped(b)
  {
    if a == [] {
      assert a + b == b;
    } else {
      var ab := a + b;
      assert ab[0] == a[0];
      assert ab[1..] == a[1..] + b;
      NonBlankStrippedAppend(a[1..], b);
    }
  }

  lemma NonBlankStrippedSingle(line: string)
    ensures NonBlankStripped([line]) == if AllSpace(line) then [] else [Strip(line)]
  {
    StripEmptyIff(line);
    assert [line][1..] == [];
  }

  lemma {:induction false} NonBlankStrippedFrom(lines: seq<string>, c: char)
    requires forall l :: l in lines ==> c !in l
    ensures forall u :: u in NonBlankStripped(lines) ==> c !in u && Strip(u) == u
  {
    if lines != [] {
      assert lines[0] in lines;
      StripWithin(lines[0], c);
      StripIdempotent(lines[0]);
      NonBlankStrippedFrom(lines[1..], c);
    }
  }

  lemma {:induction false} NonBlankStrippedIdentity(lines: seq<string>)
    requires forall i :: 0 <= i < |lines| ==> lines[i] != "" && Strip(lines[i]) == lines[i]
    ensures NonBlankStripped(lines) == lines
  {
    if lines != [] {
      assert lines[0] != "";
      NonBlankStrippedIdentity(lines[1..]);
      assert [lines[0]] + lines[1..] == lines;
    }
  }

  /** Length of the longest prefix without whitespace. */
  function WordEnd(s: string): (k: nat)
    ensures k <= |s|
    ensures forall i :: 0 <= i < k ==> !IsSpace(s[i])
    ensures k == |s| || IsSpace(s[k])
  {
    if |s| == 0 || IsSpace(s[0]) then 0 else 1 + WordEnd(s[1..])
  }

  /** A non-empty run of non-whitespace. */
  predicate IsWord(w: string) {
    w != [] && forall i :: 0 <= i < |w| ==> !IsSpace(w[i])
  }

  /** `str.split()` with no separator: the maximal runs of non-whitespace, in order. */
  function Words(s: string): (ws: seq<string>)
    ensures forall w :: w in ws ==> IsWord(w)
    decreases |s|
  {
    var t := LStrip(s);
    if t == [] then []
    else
      var k := WordEnd(t);
      var w := t[..k];
      assert IsWord(w);
      var rest := Words(t[k..]);
      assert forall v :: v in [w] + rest ==> v == w || v in rest;
      [w] + rest
  }

  /** Length of the longest prefix without a line boundary. */
  function LineEnd(s: string): (k: nat)
    ensures k <= |s|
    ensures forall i :: 0 <= i < k ==> !IsLineBreak(s[i])
    ensures k == |s| || IsLineBreak(s[k])
  {
    if |s| == 0 || IsLineBreak(s[0]) then 0 else 1 + LineEnd(s[1..])
  }

  /** `str.splitlines()`: CR LF counts as one boundary and a final boundary adds no empty line. */
  function SplitLines(s: string): (ls: seq<string>)
    ensures forall l :: l in ls ==> forall i :: 0 <= i < |l| ==> !IsLineBreak(l[i])
    decreases |s|
  {
    if s == [] then []
    else
      var k := LineEnd(s);
      if k == |s| then [s]
      else
        var next := if s[k] == '\r' && k + 1 < |s| && s[k + 1] == '\n' then k + 2 else k + 1;
        [s[..k]] + SplitLines(s[next..])
  }

  /** `s.find(c)`: the first index of `c`, or -1. */
  function Find(s: string, c: char): (r: int)
    ensures -1 <= r < |s|
    ensures r == -1 <==> c !in s
    ensures r >= 0 ==> s[r] == c && c !in s[..r]
    ensures forall k :: 0 <= k < |s| && (r < 0 || k < r) ==> s[k] != c
  {
    if |s| == 0 then -1
    else if s[0] == c then 0
    else
      var k := Find(s[1..], c);
      if k < 0 then -1
      else
        assert s[..k + 1] == [s[0]] + s[1..][..k];
        k + 1
  }

  /** `s.rfind(c)`: the last index of `c`, or -1. */
  function RFind(s: string, c: char): (r: int)
    ensures -1 <= r < |s|
    ensures r == -1 <==> c !in s
    ensures r >= 0 ==> s[r] == c && c !in s[r + 1..]
    ensures forall k :: r < k < |s| ==> s[k] != c
  {
    if |s| == 0 then -1
    else if s[|s| - 1] == c then |s| - 1
    else
      var k := RFind(s[..|s| - 1], c);
      assert s == s[..|s| - 1] + [s[|s| - 1]];
      k
  }

  /** `s.find(sub)`: the first index at which `sub` starts, or -1. */
  function FindSub(s: string, sub: string): (r: int)
    ensures -1 <= r <= |s|
    ensures r >= 0 ==> sub <= s[r..]
    ensures r >= 0 ==> forall j :: 0 <= j < r ==> !(sub <= s[j..])
    ensures r == -1 ==> forall j :: 0 <= j <= |s| ==> !(sub <= s[j..])
  {
    if sub <= s then 0
    else if |s| == 0 then -1
    else
      var k := FindSub(s[1..], sub);
      assert forall j :: 1 <= j <= |s| ==> s[j..] == s[1..][j - 1..];
      if k < 0 then -1 else k + 1
  }

  /** Python's `sub in s`. */
  predicate Contains(s: string, sub: string) {
    FindSub(s, sub) >= 0
  }

  lemma ContainsAt(s: string, sub: string, i: nat)
    requires i <= |s| && sub <= s[i..]
    ensures Contains(s, sub)
  {
  }

  /** A string occurs in any concatenation that has it as a middle part. */
  lemma ContainsMiddle(a: string, b: string, c: string)
    ensures Contains(a + b + c, b)
  {
    assert (a + b + c)[|a|..] == b + c;
    ContainsAt(a + b + c, b, |a|);
  }

  /** What occurs in a part occurs in any concatenation around it. */
  lemma ContainsWithin(a: string, x: string, c: string, y: string)
    requires Contains(x, y)
    ensures Contains(a + x + c, y)
  {
    var j := FindSub(x, y);
    assert (a + x + c)[|a| + j..] == x[j..] + c;
    ContainsAt(a + x + c, y, |a| + j);
  }

  lemma ContainsLeft(x: string, c: string)
    ensures Contains(x + c, x)
  {
    assert (x + c)[0..] == x + c;
    ContainsAt(x + c, x, 0);
  }

  lemma ContainsRight(a: string, x: string, y: string)
    requires Contains(x, y)
    ensures Contains(a + x, y)
  {
    var j := FindSub(x, y);
    assert (a + x)[|a| + j..] == x[j..];
    ContainsAt(a + x, y, |a| + j);
  }

  lemma ContainsExtend(x: string, c: string, y: string)
    requires Contains(x, y)
    ensures Contains(x + c, y)
  {
    var j := FindSub(x, y);
    assert (x + c)[j..] == x[j..] + c;
    ContainsAt(x + c, y, j);
  }

  lemma AppendAssoc(a: string, b: string, c: string)
    ensures a + b + c == a + (b + c)
  {
  }

  /** Occurrence is transitive: a substring of a substring is a substring. */
  lemma ContainsTransitive(s: string, x: string, y: string)
    requires Contains(s, x) && Contains(x, y)
    ensures Contains(s, y)
  {
    var i := FindSub(s, x);
    var j := FindSub(x, y);
    assert s[i..][j..] == s[i + j..];
    assert y <= x[j..];
    assert x[j..] <= s[i..][j..];
    ContainsAt(s, y, i + j);
  }

  /** Of `a + b + (c + d)`, `a` is a prefix, `c` occurs in it and `d` is a suffix. */
  lemma ConcatParts(a: string, b: string, c: string, d: string)
    ensures StartsWith(a + b + (c + d), a)
    ensures Contains(a + b + (c + d), c)
    ensures EndsWith(a + b + (c + d), d)
  {
    var s := a + b + (c + d);
    assert s == (a + b) + c + d;
    ContainsMiddle(a + b, c, d);
    assert s[..|a|] == a;
    assert s[|s| - |d|..] == d;
  }

  /** Every element of a join occurs in the joined string. */
  lemma {:induction false} JoinContains(sep: string, xs: seq<string>, i: nat)
    requires i < |xs|
    ensures Contains(Join(sep, xs), xs[i])
  {
    if |xs| == 1 {
      ContainsLeft(xs[0], "");
      assert xs[0] + "" == xs[0];
    } else if i == 0 {
      AppendAssoc(xs[0], sep, Join(sep, xs[1..]));
      ContainsLeft(xs[0], sep + Join(sep, xs[1..]));
    } else {
      assert xs[1..][i - 1] == xs[i];
      JoinContains(sep, xs[1..], i - 1);
      ContainsRight(xs[0] + sep, Join(sep, xs[1..]), xs[i]);
    }
  }

  /** `s.startswith(p)` */
  predicate StartsWith(s: string, p: string) {
    p <= s
  }

  /** `s.endswith(p)` */
  predicate EndsWith(s: string, p: string) {
    |p| <= |s| && s[|s| - |p|..] == p
  }

  lemma EndsWithAppend(a: string, b: string)
    ensures EndsWith(a + b, b)
  {
    assert (a + b)[|a|..] == b;
  }

  /** `s.endswith(suffixes)` for a tuple of suffixes. */
  predicate EndsWithAny(s: string, ps: seq<string>) {
    exists i :: 0 <= i < |ps| && EndsWith(s, ps[i])
  }

  function DigitChar(d: nat): char
    requires d < 10
  {
    ('0' as int + d) as char
  }

  /** `str(n)` for a natural number. */
  function Decimal(n: nat): (r: string)
    ensures r != []
    ensures n < 10 <==> |r| == 1
    ensures forall i :: 0 <= i < |r| ==> '0' <= r[i] <= '9'
  {
    if n < 10 then [DigitChar(n)] else Decimal(n / 10) + [DigitChar(n % 10)]
  }

  /** Different numbers print differently. */
  lemma {:induction false} DecimalInjective(a: nat, b: nat)
    requires Decimal(a) == Decimal(b)
    ensures a == b
  {
    var s := Decimal(a);
    if a < 10 {
      assert |Decimal(b)| == 1;
    } else {
      assert b >= 10;
      assert Decimal(a / 10) == s[..|s| - 1] == Decimal(b / 10);
      DecimalInjective(a / 10, b / 10);
      assert DigitChar(a % 10) == s[|s| - 1] == DigitChar(b % 10);
    }
  }

  /** `str(n)` for any integer. */
  function IntText(n: int): string {
    if n < 0 then "-" + Decimal(-n) else Decimal(n)
  }

  /** The text after the last occurrence of `c`: `s.split(c)[-1]`. */
  function AfterLast(s: string, c: char): (r: string)
    ensures c !in r
    ensures EndsWith(s, r)
  {
    var k := RFind(s, c);
    if k < 0 then s else s[k + 1..]
  }
}
