/** The parts of Python's `str` and `os.path` that the text datasets rely on:
    `str.split()` with no separator, `str.strip()`, `'{:05d}'.format(n)` and
    `os.path.join`. Strings are sequences of code points. */
module Strings {

  /** Python 3's `str.isspace`: the code points `split()` and `strip()` treat
      as whitespace. */
  predicate IsSpace(c: char) {
    var x := c as int;
    || 9 <= x <= 13 || 28 <= x <= 32
    || x == 0x85 || x == 0xA0 || x == 0x1680
    || 0x2000 <= x <= 0x200A
    || x == 0x2028 || x == 0x2029 || x == 0x202F || x == 0x205F || x == 0x3000
  }

  predicate AllSpace(s: string) {
    forall i :: 0 <= i < |s| ==> IsSpace(s[i])
  }

  /** A piece `split()` can return: non-empty and free of whitespace. */
  predicate IsWord(w: string) {
    |w| > 0 && forall i :: 0 <= i < |w| ==> !IsSpace(w[i])
  }

  /** The length of the whitespace run that `s` starts with. */
  function SpaceRun(s: string): (n: nat)
    ensures n <= |s|
    ensures forall i :: 0 <= i < n ==> IsSpace(s[i])
    ensures n == |s| || !IsSpace(s[n])
  {
    if s == [] || !IsSpace(s[0]) then 0 else 1 + SpaceRun(s[1..])
  }

  /** The length of the non-whitespace run that `s` starts with. */
  function WordRun(s: string): (n: nat)
    ensures n <= |s|
    ensures forall i :: 0 <= i < n ==> !IsSpace(s[i])
    ensures n == |s| || IsSpace(s[n])
  {
    if s == [] || IsSpace(s[0]) then 0 else 1 + WordRun(s[1..])
  }

  /** The length of the whitespace run that `s` ends with. */
  function TrailingSpaceRun(s: string): (n: nat)
    ensures n <= |s|
    ensures forall i :: |s| - n <= i < |s| ==> IsSpace(s[i])
    ensures n == |s| || !IsSpace(s[|s| - 1 - n])
  {
    if s == [] || !IsSpace(s[|s| - 1]) then 0 else 1 + TrailingSpaceRun(s[..|s| - 1])
  }

  /** `s.split()`: skip whitespace, take the next maximal run of other
      characters, repeat until nothing but whitespace is left. */
  function Split(s: string): (r: seq<string>)
    ensures forall i :: 0 <= i < |r| ==> IsWord(r[i])
    decreases |s|
  {
    var t := s[SpaceRun(s)..];
    if t == [] then []
    else
      var n := WordRun(t);
      [t[..n]] + Split(t[n..])
  }

  /** `s.strip()`: drop the leading and the trailing whitespace run. */
  function Strip(s: string): (r: string)
  {
    var t := s[SpaceRun(s)..];
    t[..|t| - TrailingSpaceRun(t)]
  }

  /** The characters of `s` that are not whitespace, in order. */
  function NonSpace(s: string): (r: string)
  {
    if s == [] then []
    else (if IsSpace(s[0]) then [] else [s[0]]) + NonSpace(s[1..])
  }

  function Concat(ws: seq<string>): (r: string)
  {
    if ws == [] then [] else ws[0] + Concat(ws[1..])
  }

  /** `sep.join(ws)` */
  function Join(ws: seq<string>, sep: string): (r: string)
  {
    if ws == [] then []
    else if |ws| == 1 then ws[0]
    else ws[0] + sep + Join(ws[1..], sep)
  }

  lemma {:induction false} NonSpaceAppend(a: string, b: string)
    ensures NonSpace(a + b) == NonSpace(a) + NonSpace(b)
  {
    if a != [] {
      assert (a + b)[1..] == a[1..] + b;
      NonSpaceAppend(a[1..], b);
    } else {
      assert a + b == b;
    }
  }

  lemma {:induction false} NonSpaceOfSpace(s: string)
    requires AllSpace(s)
    ensures NonSpace(s) == []
  {
    if s != [] {
      NonSpaceOfSpace(s[1..]);
    }
  }

  lemma {:induction false} NonSpaceOfRun(s: string)
    requires forall i :: 0 <= i < |s| ==> !IsSpace(s[i])
    ensures NonSpace(s) == s
  {
    if s != [] {
      NonSpaceOfRun(s[1..]);
    }
  }

  /** `split()` loses only whitespace: the pieces, concatenated, are the
      non-whitespace characters of the input in their original order. */
  lemma {:induction false} SplitKeepsText(s: string)
    ensures Concat(Split(s)) == NonSpace(s)
    decreases |s|
  {
    var t := s[SpaceRun(s)..];
    NonSpaceSkipsLeadingSpace(s);
    if t != [] {
      var n := WordRun(t);
      NonSpaceOfWordThenRest(t, n);
      SplitKeepsText(t[n..]);
      assert Concat([t[..n]] + Split(t[n..])) == t[..n] + Concat(Split(t[n..]));
    }
  }

  lemma NonSpaceSkipsLeadingSpace(s: string)
    ensures NonSpace(s) == NonSpace(s[SpaceRun(s)..])
  {
    var a := SpaceRun(s);
    assert s == s[..a] + s[a..];
    NonSpaceAppend(s[..a], s[a..]);
    NonSpaceOfSpace(s[..a]);
  }

  lemma NonSpaceOfWordThenRest(t: string, n: nat)
    requires n <= |t| && forall i :: 0 <= i < n ==> !IsSpace(t[i])
    ensures NonSpace(t) == t[..n] + NonSpace(t[n..])
  {
    assert t == t[..n] + t[n..];
    NonSpaceAppend(t[..n], t[n..]);
    NonSpaceOfRun(t[..n]);
  }

  lemma {:induction false} SkipLeadingSpace(sp: string, x: string)
    requires AllSpace(sp)
    ensures (sp + x)[SpaceRun(sp + x)..] == x[SpaceRun(x)..]
  {
    if sp != [] {
      assert (sp + x)[1..] == sp[1..] + x;
      SkipLeadingSpace(sp[1..], x);
    } else {
      assert sp + x == x;
    }
  }

  /** Whitespace in front of a string does not change how it splits. */
  lemma SplitSkipsLeadingSpace(sp: string, x: string)
    requires AllSpace(sp)
    ensures Split(sp + x) == Split(x)
  {
    SkipLeadingSpace(sp, x);
  }

  lemma {:induction false} WordRunOfWord(w: string, y: string)
    requires forall i :: 0 <= i < |w| ==> !IsSpace(w[i])
    requires y == [] || IsSpace(y[0])
    ensures WordRun(w + y) == |w|
  {
    if w != [] {
      assert (w + y)[1..] == w[1..] + y;
      WordRunOfWord(w[1..], y);
    } else {
      assert w + y == y;
    }
  }

  /** A word followed by nothing or by whitespace splits off as itself. */
  lemma SplitWordThen(w: string, y: string)
    requires IsWord(w)
    requires y == [] || IsSpace(y[0])
    ensures Split(w + y) == [w] + Split(y)
  {
    var s := w + y;
    assert SpaceRun(s) == 0;
    assert s[0..] == s;
    WordRunOfWord(w, y);
    assert s[..|w|] == w;
    assert s[|w|..] == y;
  }

  /** Round trip: splitting words joined by any whitespace separator gives
      the words back. */
  lemma {:induction false} SplitJoin(ws: seq<string>, sep: string)
    requires forall i :: 0 <= i < |ws| ==> IsWord(ws[i])
    requires |sep| > 0 && AllSpace(sep)
    ensures Split(Join(ws, sep)) == ws
  {
    if ws == [] {
    } else if |ws| == 1 {
      SplitWordThen(ws[0], []);
      assert ws[0] + [] == ws[0];
    } else {
      var w, rest := ws[0], Join(ws[1..], sep);
      assert ws == [w] + ws[1..];
      assert w + sep + rest == w + (sep + rest);
      SplitWordThen(w, sep + rest);
      SplitSkipsLeadingSpace(sep, rest);
      SplitJoin(ws[1..], sep);
    }
  }

  /** Whitespace at the end of a string does not change how it splits. */
  lemma {:induction false} SplitTrailingSpace(x: string, sp: string)
    requires AllSpace(sp)
    ensures Split(x + sp) == Split(x)
    decreases |x|, 1
  {
    var a := SpaceRun(x);
    var t := x[a..];
    assert x == x[..a] + t;
    assert x + sp == x[..a] + (t + sp);
    SplitSkipsLeadingSpace(x[..a], t);
    SplitSkipsLeadingSpace(x[..a], t + sp);
    if t == [] {
      assert t + sp == sp;
      AllSpaceSplit(sp);
      AllSpaceSplit(t);
    } else {
      SplitTrailingSpaceAfterWord(t, sp);
    }
  }

  /** The case of `SplitTrailingSpace` where the string starts with a word. */
  lemma {:induction false} SplitTrailingSpaceAfterWord(t: string, sp: string)
    requires AllSpace(sp)
    requires t != [] && !IsSpace(t[0])
    ensures Split(t + sp) == Split(t)
    decreases |t|, 0
  {
    var t' := t + sp;
    var n := WordRun(t);
    assert SpaceRun(t) == 0 && t[0..] == t;
    assert SpaceRun(t') == 0 && t'[0..] == t' by {
      assert t'[0] == t[0];
    }
    if n < |t| {
      WordRunPrefix(t, sp);
      assert t'[..n] == t[..n];
      assert t'[n..] == t[n..] + sp;
      SplitTrailingSpace(t[n..], sp);
    } else {
      WordRunOfWord(t, sp);
      assert t'[..n] == t[..n];
      assert t'[n..] == sp;
      AllSpaceSplit(sp);
      AllSpaceSplit(t[n..]);
    }
  }

  lemma {:induction false} WordRunPrefix(t: string, sp: string)
    requires WordRun(t) < |t|
    ensures WordRun(t + sp) == WordRun(t)
  {
    if !IsSpace(t[0]) {
      assert (t + sp)[1..] == t[1..] + sp;
      WordRunPrefix(t[1..], sp);
    }
  }

  lemma AllSpaceSplit(s: string)
    requires AllSpace(s)
    ensures Split(s) == []
  {
    assert SpaceRun(s) == |s|;
  }

  /** `strip()` removes exactly the maximal whitespace runs at both ends:
      the result is a contiguous part of the input that neither starts nor
      ends with whitespace, and only whitespace lies outside it. */
  lemma {:induction false} StripIsTrim(s: string)
    ensures var a, r := SpaceRun(s), Strip(s);
      && a + |r| <= |s|
      && r == s[a..a + |r|]
      && AllSpace(s[..a])
      && AllSpace(s[a + |r|..])
      && (r == [] || (!IsSpace(r[0]) && !IsSpace(r[|r| - 1])))
  {
    var a := SpaceRun(s);
    var t := s[a..];
    var b := TrailingSpaceRun(t);
    var r := t[..|t| - b];
    assert Strip(s) == r;
    TrimEnds(s, a, t, b, r);
  }

  /** Cutting a leading run of `a` whitespace characters from `s`, and a
      trailing run of `b` from the remainder `t`, leaves a contiguous part
      `r` of `s` with only whitespace outside it. */
  lemma {:induction false} TrimEnds(s: string, a: nat, t: string, b: nat, r: string)
    requires a <= |s| && t == s[a..] && b <= |t| && r == t[..|t| - b]
    requires forall i :: 0 <= i < a ==> IsSpace(s[i])
    requires a == |s| || !IsSpace(s[a])
    requires forall i :: |t| - b <= i < |t| ==> IsSpace(t[i])
    requires b == |t| || !IsSpace(t[|t| - 1 - b])
    ensures a + |r| <= |s|
    ensures r == s[a..a + |r|]
    ensures AllSpace(s[..a])
    ensures AllSpace(s[a + |r|..])
    ensures r == [] || (!IsSpace(r[0]) && !IsSpace(r[|r| - 1]))
  {
    var e := |s| - b;
    assert r == s[a..e];
    assert AllSpace(s[..a]) by {
      forall i | 0 <= i < a
        ensures IsSpace(s[..a][i])
      {
        assert s[..a][i] == s[i];
      }
    }
    assert AllSpace(s[e..]) by {
      forall i | 0 <= i < |s| - e
        ensures IsSpace(s[e..][i])
      {
        assert s[e..][i] == t[|t| - b + i];
      }
    }
    if r != [] {
      assert r[0] == s[a];
      assert r[|r| - 1] == t[|t| - 1 - b];
    }
  }

  // --- '{:05d}'.format(n) ---

  predicate IsDigit(c: char) {
    '0' <= c <= '9'
  }

  predicate AllDigits(s: string) {
    forall i :: 0 <= i < |s| ==> IsDigit(s[i])
  }

  function DigitChar(d: nat): (c: char)
    requires d < 10
    ensures IsDigit(c) && c as int - '0' as int == d
  {
    (d + '0' as int) as char
  }

  /** `str(n)` for `n >= 0`: the decimal digits of `n` without leading zeros. */
  function Decimal(n: nat): (r: string)
    ensures |r| >= 1 && AllDigits(r)
  {
    if n < 10 then [DigitChar(n)] else Decimal(n / 10) + [DigitChar(n % 10)]
  }

  function Zeros(k: nat): (r: string)
    ensures |r| == k && forall i :: 0 <= i < k ==> r[i] == '0'
  {
    seq(k, _ => '0')
  }

  /** `'{:05d}'.format(n)` for `n >= 0`: the decimal digits of `n`, padded
      on the left with zeros to a width of at least five. */
  function Format05(n: nat): (r: string)
    ensures AllDigits(r) && |r| >= 5
  {
    var d := Decimal(n);
    (if |d| < 5 then Zeros(5 - |d|) else []) + d
  }

  /** The number a string of decimal digits stands for. */
  function ParseDecimal(s: string): (n: nat)
    requires AllDigits(s)
  {
    if s == [] then 0 else ParseDecimal(s[..|s| - 1]) * 10 + (s[|s| - 1] as int - '0' as int)
  }

  lemma {:induction false} ParseDecimalOfDecimal(n: nat)
    ensures ParseDecimal(Decimal(n)) == n
  {
    if n >= 10 {
      var d := Decimal(n);
      assert d[..|d| - 1] == Decimal(n / 10);
      ParseDecimalOfDecimal(n / 10);
    }
  }

  lemma {:induction false} ParseDecimalOfZeros(k: nat)
    ensures ParseDecimal(Zeros(k)) == 0
  {
    if k > 0 {
      assert Zeros(k)[..k - 1] == Zeros(k - 1);
      ParseDecimalOfZeros(k - 1);
    }
  }

  lemma {:induction false} ParseDecimalLeadingZeros(k: nat, s: string)
    requires AllDigits(s)
    ensures AllDigits(Zeros(k) + s)
    ensures ParseDecimal(Zeros(k) + s) == ParseDecimal(s)
  {
    if s == [] {
      assert Zeros(k) + s == Zeros(k);
      ParseDecimalOfZeros(k);
    } else {
      var z := Zeros(k) + s;
      assert z[..|z| - 1] == Zeros(k) + s[..|s| - 1];
      ParseDecimalLeadingZeros(k, s[..|s| - 1]);
    }
  }

  /** Round trip: the zero-padded text reads back as the number. */
  lemma Format05RoundTrip(n: nat)
    ensures ParseDecimal(Format05(n)) == n
  {
    var d := Decimal(n);
    ParseDecimalOfDecimal(n);
    if |d| < 5 {
      ParseDecimalLeadingZeros(5 - |d|, d);
    } else {
      assert Format05(n) == d;
    }
  }

  lemma {:induction false} DecimalShort(n: nat)
    ensures n < 10 ==> |Decimal(n)| == 1
    ensures n < 100 ==> |Decimal(n)| <= 2
    ensures n < 1000 ==> |Decimal(n)| <= 3
    ensures n < 10000 ==> |Decimal(n)| <= 4
    ensures n < 100000 ==> |Decimal(n)| <= 5
  {
    if n >= 10 {
      DecimalShort(n / 10);
    }
  }

  /** Below 100000 the padded text is exactly five digits wide. */
  lemma Format05Width(n: nat)
    requires n < 100000
    ensures |Format05(n)| == 5
  {
    DecimalShort(n);
  }

  /** `os.path.join(a, b)` on POSIX: an absolute `b` replaces `a`; otherwise
      `b` is appended, with a `/` in between unless `a` is empty or already
      ends with one. */
  function PathJoin(a: string, b: string): (r: string)
    ensures |r| >= |b| && r[|r| - |b|..] == b
  {
    if |b| > 0 && b[0] == '/' then b
    else if a == [] || a[|a| - 1] == '/' then a + b
    else a + "/" + b
  }

  /** A component that `os.path.join` appends after a `/`: non-empty, not
      absolute and not ending with a separator. */
  predicate IsComponent(c: string) {
    |c| > 0 && c[0] != '/' && c[|c| - 1] != '/'
  }

  /** Joining a root and three components keeps all four, in order, with
      one `/` between neighbours; none is added after a root that is empty
      or already ends with `/`. */
  lemma PathJoinComponents(root: string, a: string, b: string, c: string)
    requires IsComponent(a) && IsComponent(b) && IsComponent(c)
    ensures var prefix := if root == [] || root[|root| - 1] == '/' then root else root + "/";
      PathJoin(PathJoin(PathJoin(root, a), b), c) == prefix + a + "/" + b + "/" + c
  {
    var x := PathJoin(root, a);
    assert x[|x| - 1] == a[|a| - 1];
    var y := PathJoin(x, b);
    assert y == x + "/" + b;
    assert y[|y| - 1] == b[|b| - 1];
  }
}
