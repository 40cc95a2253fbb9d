/** The few pieces of Python string behaviour the orchestration relies on:
    `str.split()` with no separator, `str.split('\n')`, `sep.join(...)`,
    `str(n)` for a natural number, `in` on strings and ASCII case mapping. */
module Text {

  import opened Outcome

  // ---------------------------------------------------------------------------
  // Whitespace splitting: `s.split()`
  // ---------------------------------------------------------------------------

  /** The characters for which Python's `str.isspace()` holds, which are the
      separators of `s.split()`. */
  predicate IsSpace(c: char) {
    var n := c as int;
    n == 0x20 || (0x09 <= n <= 0x0d) || (0x1c <= n <= 0x1f) || n == 0x85 || n == 0xa0 ||
    n == 0x1680 || (0x2000 <= n <= 0x200a) || n == 0x2028 || n == 0x2029 ||
    n == 0x202f || n == 0x205f || n == 0x3000
  }

  /** A token of `s.split()`: non-empty and free of whitespace. */
  predicate IsWord(w: string) {
    w != [] && forall c <- w :: !IsSpace(c)
  }

  /** The first index at or after `i` that holds whitespace, or `|s|`. */
  function WordEnd(s: string, i: nat): (k: nat)
    requires i <= |s|
    ensures i <= k <= |s|
    ensures forall m :: i <= m < k ==> !IsSpace(s[m])
    ensures k < |s| ==> IsSpace(s[k])
    decreases |s| - i
  {
    if i == |s| || IsSpace(s[i]) then i else WordEnd(s, i + 1)
  }

  /** `s.split()`: the maximal whitespace-free runs of `s`, in order. */
  function Words(s: string): (ws: seq<string>)
    ensures forall w <- ws :: IsWord(w)
    decreases |s|
  {
    if s == [] then []
    else if IsSpace(s[0]) then Words(s[1..])
    else
      var k := WordEnd(s, 0);
      [s[..k]] + Words(s[k..])
  }

  /** `sep.join(parts)` for a one-character separator. */
  function Join(parts: seq<string>, sep: char): string {
    if |parts| == 0 then []
    else if |parts| == 1 then parts[0]
    else parts[0] + [sep] + Join(parts[1..], sep)
  }

  lemma WordEndOfWord(w: string, rest: string)
    requires IsWord(w)
    requires rest == [] || IsSpace(rest[0])
    ensures WordEnd(w + rest, 0) == |w|
  {
    var s := w + rest;
    assert forall m :: 0 <= m < |w| ==> s[m] == w[m];
    assert |w| < |s| ==> s[|w|] == rest[0];
  }

  /** Splitting a space-joined list of words gives the words back. */
  lemma {:induction false} WordsOfJoin(ws: seq<string>)
    requires forall w <- ws :: IsWord(w)
    ensures Words(Join(ws, ' ')) == ws
  {
    if |ws| == 1 {
      var w := ws[0];
      WordEndOfWord(w, []);
      assert w[..|w|] == w && w[|w|..] == [];
      assert w == w + [];
    } else if |ws| > 1 {
      var w, tail := ws[0], Join(ws[1..], ' ');
      var s := w + [' '] + tail;
      assert s == w + ([' '] + tail);
      WordEndOfWord(w, [' '] + tail);
      assert s[..|w|] == w;
      assert s[|w|..] == [' '] + tail;
      assert ([' '] + tail)[1..] == tail;
      WordsOfJoin(ws[1..]);
      assert [ws[0]] + ws[1..] == ws;
    }
  }

  /** `s.split()[-1]`, or `None` when the split is empty (Python raises). */
  function LastWord(s: string): (r: Option<string>)
    ensures r.Some? <==> Words(s) != []
    ensures r.Some? ==> IsWord(r.value) && r.value == Words(s)[|Words(s)| - 1]
  {
    var ws := Words(s);
    if ws == [] then None else Some(ws[|ws| - 1])
  }

  /** Tool output made of one line holding some words: its last word is what
      `split()[-1]` scrapes. */
  lemma LastWordOfLine(ws: seq<string>, trailer: string)
    requires ws != [] && forall w <- ws :: IsWord(w)
    requires trailer == [] || trailer == ['\n']
    ensures LastWord(Join(ws, ' ') + trailer) == Some(ws[|ws| - 1])
  {
    var s := Join(ws, ' ');
    WordsOfJoin(ws);
    assert forall c <- trailer :: IsSpace(c);
    WordsIgnoreTrailingSpace(s, trailer);
    assert Words(s + trailer) == ws;
  }

  lemma {:induction false} WordsIgnoreTrailingSpace(s: string, t: string)
    requires forall c <- t :: IsSpace(c)
    ensures Words(s + t) == Words(s)
    decreases |s|
  {
    if s == [] {
      assert s + t == t;
      AllSpaceHasNoWords(t);
    } else if IsSpace(s[0]) {
      assert (s + t)[1..] == s[1..] + t;
      WordsIgnoreTrailingSpace(s[1..], t);
    } else {
      var k := WordEnd(s, 0);
      if k < |s| {
        assert WordEnd(s + t, 0) == k by { WordEndPrefix(s, t, 0); }
        assert (s + t)[..k] == s[..k];
        assert (s + t)[k..] == s[k..] + t;
        WordsIgnoreTrailingSpace(s[k..], t);
      } else {
        assert WordEnd(s + t, 0) == k by { WordEndPrefix(s, t, 0); }
        assert (s + t)[..k] == s[..k];
        assert (s + t)[k..] == t;
        assert s[k..] == [];
        AllSpaceHasNoWords(t);
      }
    }
  }

  lemma {:induction false} WordEndPrefix(s: string, t: string, i: nat)
    requires i <= |s|
    requires t == [] || IsSpace(t[0]) || WordEnd(s, i) < |s|
    requires forall c <- t :: IsSpace(c)
    ensures WordEnd(s + t, i) == WordEnd(s, i)
    decreases |s| - i
  {
    if i == |s| {
      if t != [] { assert (s + t)[i] == t[0]; }
    } else {
      assert (s + t)[i] == s[i];
      if !IsSpace(s[i]) { WordEndPrefix(s, t, i + 1); }
    }
  }

  lemma {:induction false} AllSpaceHasNoWords(t: string)
    requires forall c <- t :: IsSpace(c)
    ensures Words(t) == []
    decreases |t|
  {
    if t != [] {
      assert t[0] in t;
      assert forall c <- t[1..] :: c in t;
      AllSpaceHasNoWords(t[1..]);
    }
  }

  // ---------------------------------------------------------------------------
  // What `s.split()` recovers: words laid out with arbitrary whitespace
  // ---------------------------------------------------------------------------

  predicate AllSpace(s: string) {
    forall c <- s :: IsSpace(c)
  }

  /** The whitespace between two neighbouring words: at least one character. */
  predicate IsGap(g: string) {
    g != [] && AllSpace(g)
  }

  /** `ws[0] + gaps[0] + ws[1] + gaps[1] + ...`; once the gaps run out the
      remaining words are separated by single spaces. */
  function Spread(ws: seq<string>, gaps: seq<string>): string {
    if |ws| == 0 then []
    else if |ws| == 1 then ws[0]
    else
      var g := if gaps == [] then " " else gaps[0];
      ws[0] + g + Spread(ws[1..], if gaps == [] then [] else gaps[1..])
  }

  lemma {:induction false} WordsSkipLeadingSpace(lead: string, s: string)
    requires AllSpace(lead)
    ensures Words(lead + s) == Words(s)
    decreases |lead|
  {
    if lead != [] {
      assert lead[0] in lead;
      assert (lead + s)[1..] == lead[1..] + s;
      assert forall c <- lead[1..] :: c in lead;
      WordsSkipLeadingSpace(lead[1..], s);
    } else {
      assert lead + s == s;
    }
  }

  lemma {:induction false} WordsOfSpreadCore(ws: seq<string>, gaps: seq<string>)
    requires forall w <- ws :: IsWord(w)
    requires forall g <- gaps :: IsGap(g)
    ensures Words(Spread(ws, gaps)) == ws
  {
    if |ws| == 1 {
      var w := ws[0];
      WordEndOfWord(w, []);
      assert w[..|w|] == w && w[|w|..] == [];
      assert w == w + [];
    } else if |ws| > 1 {
      var w := ws[0];
      var g := if gaps == [] then " " else gaps[0];
      var more := if gaps == [] then [] else gaps[1..];
      assert IsGap(g) by { if gaps != [] { assert gaps[0] in gaps; } }
      assert forall h <- more :: h in gaps;
      var tail := Spread(ws[1..], more);
      var s := w + g + tail;
      assert s == w + (g + tail);
      WordEndOfWord(w, g + tail);
      assert s[..|w|] == w;
      assert s[|w|..] == g + tail;
      WordsSkipLeadingSpace(g, tail);
      WordsOfSpreadCore(ws[1..], more);
      assert [ws[0]] + ws[1..] == ws;
    }
  }

  /** Splitting words laid out with any non-empty whitespace between them, and
      any whitespace before and after, gives the words back: column padding
      does not change what `split()` yields. */
  lemma WordsOfSpread(lead: string, ws: seq<string>, gaps: seq<string>, trail: string)
    requires AllSpace(lead) && AllSpace(trail)
    requires forall w <- ws :: IsWord(w)
    requires forall g <- gaps :: IsGap(g)
    ensures Words(lead + Spread(ws, gaps) + trail) == ws
  {
    var s := Spread(ws, gaps);
    WordsIgnoreTrailingSpace(lead + s, trail);
    WordsSkipLeadingSpace(lead, s);
    WordsOfSpreadCore(ws, gaps);
  }

  lemma SpreadHead(ws: seq<string>, gaps: seq<string>)
    requires ws != [] && ws[0] != []
    ensures Spread(ws, gaps) != [] && Spread(ws, gaps)[0] == ws[0][0]
  {
    if |ws| > 1 {
      var g := if gaps == [] then " " else gaps[0];
      var s := Spread(ws, gaps);
      assert s == ws[0] + (g + Spread(ws[1..], if gaps == [] then [] else gaps[1..]));
    }
  }

  /** Every string is the words `split()` finds, laid out with non-empty gaps
      between them and optional whitespace around them: the words are exactly
      the maximal whitespace-free runs of the string. Together with
      `WordsOfSpread` this pins `Words` down completely. */
  lemma {:induction false} WordsLayout(s: string) returns (lead: string, gaps: seq<string>, trail: string)
    ensures AllSpace(lead) && AllSpace(trail)
    ensures forall g <- gaps :: IsGap(g)
    ensures |gaps| == if Words(s) == [] then 0 else |Words(s)| - 1
    ensures s == lead + Spread(Words(s), gaps) + trail
    decreases |s|
  {
    if s == [] {
      lead, gaps, trail := [], [], [];
    } else if IsSpace(s[0]) {
      var l, g, t := WordsLayout(s[1..]);
      lead, gaps, trail := LayoutAfterSpace(s, l, g, t);
    } else {
      var l, g, t := WordsLayout(s[WordEnd(s, 0)..]);
      lead, gaps, trail := LayoutOfWord(s, l, g, t);
    }
  }

  /** `s` is the words `split()` finds in it, laid out by `lead`, `gaps` and `trail`. */
  ghost predicate IsLayout(s: string, lead: string, gaps: seq<string>, trail: string) {
    && AllSpace(lead) && AllSpace(trail)
    && (forall g <- gaps :: IsGap(g))
    && |gaps| == (if Words(s) == [] then 0 else |Words(s)| - 1)
    && s == lead + Spread(Words(s), gaps) + trail
  }

  /** The step of `WordsLayout` past a leading blank: it joins the lead. */
  lemma LayoutAfterSpace(s: string, l: string, g: seq<string>, t: string)
    returns (lead: string, gaps: seq<string>, trail: string)
    requires s != [] && IsSpace(s[0]) && IsLayout(s[1..], l, g, t)
    ensures IsLayout(s, lead, gaps, trail)
  {
    lead, gaps, trail := [s[0]] + l, g, t;
    assert Words(s) == Words(s[1..]);
    assert s == [s[0]] + s[1..];
    assert forall c <- lead :: c == s[0] || c in l;
  }

  /** The step of `WordsLayout` past a leading word. */
  lemma LayoutOfWord(s: string, l: string, g: seq<string>, t: string)
    returns (lead: string, gaps: seq<string>, trail: string)
    requires s != [] && !IsSpace(s[0]) && IsLayout(s[WordEnd(s, 0)..], l, g, t)
    ensures IsLayout(s, lead, gaps, trail)
  {
    var k := WordEnd(s, 0);
    var w, rest := s[..k], s[k..];
    assert s == w + rest;
    assert Words(s) == [w] + Words(rest);
    assert IsWord(w) by { assert w == Words(s)[0]; }
    assert rest == [] || IsSpace(rest[0]);
    var ws := Words(rest);
    if ws != [] {
      assert IsWord(ws[0]) by { assert ws[0] in ws; }
      SpreadHead(ws, g);
      assert !IsSpace(ws[0][0]) by { assert ws[0][0] in ws[0]; }
      assert l != [];
    }
    lead, gaps, trail := LayoutAfterWord(w, ws, l, g, t);
  }

  /** The step of `WordsLayout` past one word: the whitespace before the next
      word becomes the gap after this one. */
  lemma LayoutAfterWord(w: string, ws: seq<string>, l: string, g: seq<string>, t: string)
    returns (lead: string, gaps: seq<string>, trail: string)
    requires AllSpace(l) && AllSpace(t) && forall h <- g :: IsGap(h)
    requires |g| == if ws == [] then 0 else |ws| - 1
    requires ws != [] ==> l != []
    ensures AllSpace(lead) && AllSpace(trail)
    ensures forall h <- gaps :: IsGap(h)
    ensures |gaps| == |ws|
    ensures w + (l + Spread(ws, g) + t) == lead + Spread([w] + ws, gaps) + trail
  {
    if ws == [] {
      lead, gaps, trail := [], [], l + t;
      assert Spread([w], []) == w;
      assert forall c <- l + t :: c in l || c in t;
    } else {
      lead, gaps, trail := [], [l] + g, t;
      var all := [w] + ws;
      assert all[1..] == ws && gaps[1..] == g;
      assert Spread(all, gaps) == w + l + Spread(ws, g);
      assert forall h <- gaps :: h == l || h in g;
    }
  }

  // ---------------------------------------------------------------------------
  // Line splitting: `s.split('\n')`
  // ---------------------------------------------------------------------------

  /** The first index at or after `i` that holds a newline, or `|s|`. */
  function LineEnd(s: string, i: nat): (k: nat)
    requires i <= |s|
    ensures i <= k <= |s|
    ensures forall m :: i <= m < k ==> s[m] != '\n'
    ensures k < |s| ==> s[k] == '\n'
    decreases |s| - i
  {
    if i == |s| || s[i] == '\n' then i else LineEnd(s, i + 1)
  }

  /** `s.split('\n')`: never empty; a trailing newline yields a last "" line. */
  function Lines(s: string): (ls: seq<string>)
    ensures |ls| >= 1
    ensures forall l <- ls :: '\n' !in l
    decreases |s|
  {
    var k := LineEnd(s, 0);
    assert '\n' !in s[..k] by {
      forall m | 0 <= m < k ensures s[..k][m] != '\n' { }
    }
    if k == |s| then [s] else [s[..k]] + Lines(s[k + 1..])
  }

  /** Joining the lines of `s` with newlines gives `s` back. */
  lemma {:induction false} JoinOfLines(s: string)
    ensures Join(Lines(s), '\n') == s
    decreases |s|
  {
    var k := LineEnd(s, 0);
    if k < |s| {
      var head, tail := s[..k], s[k + 1..];
      JoinOfLines(tail);
      var rest := Lines(tail);
      var ls := [head] + rest;
      assert Lines(s) == ls;
      assert ls[1..] == rest;
      assert Join(ls, '\n') == head + ['\n'] + Join(rest, '\n');
      assert s == head + ['\n'] + tail;
    }
  }

  /** Splitting newline-free lines joined by newlines gives the lines back. */
  lemma {:induction false} LinesOfJoin(ls: seq<string>)
    requires |ls| >= 1
    requires forall l <- ls :: '\n' !in l
    ensures Lines(Join(ls, '\n')) == ls
  {
    var l := ls[0];
    if |ls| == 1 {
      NoNewlineLineEnd(l, []);
      assert l == l + [];
    } else {
      var tail := Join(ls[1..], '\n');
      var s := l + ['\n'] + tail;
      assert s == l + (['\n'] + tail);
      NoNewlineLineEnd(l, ['\n'] + tail);
      assert s[..|l|] == l;
      assert s[|l| + 1..] == tail;
      LinesOfJoin(ls[1..]);
      assert [ls[0]] + ls[1..] == ls;
    }
  }

  lemma NoNewlineLineEnd(l: string, rest: string)
    requires '\n' !in l
    requires rest == [] || rest[0] == '\n'
    ensures LineEnd(l + rest, 0) == |l|
  {
    var s := l + rest;
    assert forall m :: 0 <= m < |l| ==> s[m] == l[m];
    assert |l| < |s| ==> s[|l|] == rest[0];
  }

  /** The list comprehension `[x for x in ls if x != '']`. */
  function NonEmpty(ls: seq<string>): (r: seq<string>)
    ensures forall l <- r :: l != [] && l in ls
    ensures forall l <- ls :: l != [] ==> l in r
  {
    if ls == [] then []
    else if ls[0] == [] then NonEmpty(ls[1..])
    else [ls[0]] + NonEmpty(ls[1..])
  }

  /** The filter keeps the non-empty lines in their original order: it maps
      each line on its own to itself or to nothing, and distributes over
      concatenation. */
  lemma {:induction false} NonEmptyIsFilter(a: seq<string>, b: seq<string>, l: string)
    ensures NonEmpty(a + b) == NonEmpty(a) + NonEmpty(b)
    ensures NonEmpty([l]) == if l == [] then [] else [l]
    decreases |a|
  {
    if a == [] {
      assert a + b == b;
    } else {
      assert (a + b)[0] == a[0];
      assert (a + b)[1..] == a[1..] + b;
      NonEmptyIsFilter(a[1..], b, l);
    }
  }

  // ---------------------------------------------------------------------------
  // Decimal rendering: `str(n)` and `'{}'.format(n)`
  // ---------------------------------------------------------------------------

  predicate IsDigit(c: char) { '0' as int <= c as int <= '9' as int }

  function DigitChar(d: nat): (c: char)
    requires d < 10
    ensures IsDigit(c) && c as int - '0' as int == d
  {
    ('0' as int + d) as char
  }

  /** `str(n)`: the shortest decimal numeral of `n`. */
  function NatToString(n: nat): (s: string)
    ensures s != [] && forall c <- s :: IsDigit(c)
    decreases n
  {
    if n < 10 then [DigitChar(n)] else NatToString(n / 10) + [DigitChar(n % 10)]
  }

  /** The number a string of decimal digits denotes (Python's `int(s)`). */
  function DigitsValue(s: string): nat
    requires forall c <- s :: IsDigit(c)
  {
    if s == [] then 0
    else
      assert forall c <- s[..|s| - 1] :: c in s;
      assert s[|s| - 1] in s && IsDigit(s[|s| - 1]);
      DigitsValue(s[..|s| - 1]) * 10 + (s[|s| - 1] as int - '0' as int)
  }

  /** `int(str(n)) == n`. */
  lemma {:induction false} DigitsValueOfNatToString(n: nat)
    ensures DigitsValue(NatToString(n)) == n
    decreases n
  {
    if n >= 10 {
      var s := NatToString(n);
      assert s[..|s| - 1] == NatToString(n / 10);
      DigitsValueOfNatToString(n / 10);
    }
  }

  /** Distinct numbers render as distinct numerals. */
  lemma NatToStringInjective(a: nat, b: nat)
    requires NatToString(a) == NatToString(b)
    ensures a == b
  {
    DigitsValueOfNatToString(a);
    DigitsValueOfNatToString(b);
  }

  /** `p + str(a) == p + str(b)` only when `a == b`: numbering under a fixed
      prefix yields distinct names. */
  lemma PrefixedNumeralInjective(p: string, a: nat, b: nat)
    requires p + NatToString(a) == p + NatToString(b)
    ensures a == b
  {
    assert (p + NatToString(a))[|p|..] == NatToString(a);
    assert (p + NatToString(b))[|p|..] == NatToString(b);
    NatToStringInjective(a, b);
  }

  /** The index of the first character of `s` that is not a decimal digit,
      or `|s|`. */
  function FirstNonDigit(s: string): (k: nat)
    ensures k <= |s|
  {
    if s == [] || !IsDigit(s[0]) then 0 else 1 + FirstNonDigit(s[1..])
  }

  lemma {:induction false} FirstNonDigitAfterDigits(x: string, rest: string)
    requires forall c <- x :: IsDigit(c)
    requires rest != [] && !IsDigit(rest[0])
    ensures FirstNonDigit(x + rest) == |x|
  {
    if x != [] {
      assert x[0] in x;
      assert forall c <- x[1..] :: c in x;
      assert (x + rest)[1..] == x[1..] + rest;
      FirstNonDigitAfterDigits(x[1..], rest);
    } else {
      assert x + rest == rest;
    }
  }

  /** Two digit strings followed by a separator that is not a digit can be
      told apart at that separator. */
  lemma DigitsBeforeSeparator(x: string, y: string, u: string, v: string, sep: char)
    requires forall c <- x :: IsDigit(c)
    requires forall c <- u :: IsDigit(c)
    requires !IsDigit(sep)
    requires x + [sep] + y == u + [sep] + v
    ensures x == u && y == v
  {
    var s := x + [sep] + y;
    assert s == x + ([sep] + y);
    assert s == u + ([sep] + v);
    FirstNonDigitAfterDigits(x, [sep] + y);
    FirstNonDigitAfterDigits(u, [sep] + v);
    assert x == s[..|x|] && u == s[..|u|];
    assert y == s[|x| + 1..] && v == s[|u| + 1..];
  }

  // ---------------------------------------------------------------------------
  // Substrings and ASCII case
  // ---------------------------------------------------------------------------

  /** Python's `sub in s` for strings. */
  predicate Contains(s: string, sub: string) {
    sub <= s || (s != [] && Contains(s[1..], sub))
  }

  predicate IsAscii(c: char) { c as int < 128 }

  /** `c.lower()` on an ASCII character. */
  function LowerChar(c: char): (r: char)
    ensures 'A' <= c <= 'Z' ==> r as int == c as int + 32
    ensures !('A' <= c <= 'Z') ==> r == c
  {
    if 'A' <= c <= 'Z' then (c as int + 32) as char else c
  }

  /** `c.upper()` on an ASCII character. */
  function UpperChar(c: char): (r: char)
    ensures 'a' <= c <= 'z' ==> r as int == c as int - 32
    ensures !('a' <= c <= 'z') ==> r == c
  {
    if 'a' <= c <= 'z' then (c as int - 32) as char else c
  }

  /** `s.lower()` on an ASCII string. */
  function Lower(s: string): (r: string)
    ensures |r| == |s|
    ensures forall i :: 0 <= i < |s| ==> r[i] == LowerChar(s[i])
  {
    seq(|s|, i requires 0 <= i < |s| => LowerChar(s[i]))
  }
}
