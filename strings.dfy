/**
 * Text helpers shared by the model: Python's byte-string whitespace,
 * `str.split()`, `str.split(sep)`, `sep.join(...)`, `str.lower()`,
 * stripping, and the lexicographic order that `sorted` and `max` use
 * on strings.
 */
module Strings {

  /** Python 2 `str.isspace` for one byte: space, \t, \n, \v, \f, \r. */
  predicate IsSpace(c: char) {
    c == ' ' || c == '\t' || c == '\n' || c == '\r' || c as int == 11 || c as int == 12
  }

  predicate NoSpace(s: string) {
    forall i :: 0 <= i < |s| ==> !IsSpace(s[i])
  }

  predicate AllSpace(s: string) {
    forall i :: 0 <= i < |s| ==> IsSpace(s[i])
  }

  predicate IsDigit(c: char) {
    '0' <= c <= '9'
  }

  /** `\w` of a byte-string regular expression: letters, digits and underscore. */
  predicate IsWordChar(c: char) {
    'a' <= c <= 'z' || 'A' <= c <= 'Z' || IsDigit(c) || c == '_'
  }

  predicate StartsWith(s: string, prefix: string) {
    |prefix| <= |s| && s[..|prefix|] == prefix
  }

  predicate EndsWith(s: string, suffix: string) {
    |suffix| <= |s| && s[|s| - |suffix|..] == suffix
  }

  /** ASCII lower-casing, as `str.lower()` does in the C locale. */
  function LowerChar(c: char): (r: char)
    ensures 'A' <= c <= 'Z' ==> r as int == c as int + 32
    ensures !('A' <= c <= 'Z') ==> r == c
  {
    if 'A' <= c <= 'Z' then (c as int + 32) as char else c
  }

  function Lower(s: string): (r: string)
    ensures |r| == |s|
    ensures forall i :: 0 <= i < |s| ==> r[i] == LowerChar(s[i])
  {
    if |s| == 0 then [] else [LowerChar(s[0])] + Lower(s[1..])
  }

  /** The longest prefix of `s` made of whitespace. */
  function LeadingSpace(s: string): (r: nat)
    ensures r <= |s| && AllSpace(s[..r])
    ensures r < |s| ==> !IsSpace(s[r])
  {
    if |s| == 0 || !IsSpace(s[0]) then 0 else 1 + LeadingSpace(s[1..])
  }

  function LStrip(s: string): (r: string)
    ensures EndsWith(s, r) && AllSpace(s[..|s| - |r|])
    ensures |r| > 0 ==> !IsSpace(r[0])
  {
    s[LeadingSpace(s)..]
  }

  /** Leading whitespace in front of a text is stripped with the text's own. */
  lemma {:induction false} LStripSpaces(sp: string, s: string)
    requires AllSpace(sp)
    ensures LStrip(sp + s) == LStrip(s)
  {
    if |sp| > 0 {
      assert (sp + s)[1..] == sp[1..] + s;
      LStripSpaces(sp[1..], s);
    } else {
      assert sp + s == s;
    }
  }

  /** The number of trailing whitespace characters of `s`. */
  function TrailingSpace(s: string): (r: nat)
    ensures r <= |s| && AllSpace(s[|s| - r..])
    ensures r < |s| ==> !IsSpace(s[|s| - r - 1])
  {
    if |s| == 0 || !IsSpace(s[|s| - 1]) then 0 else 1 + TrailingSpace(s[..|s| - 1])
  }

  function RStrip(s: string): (r: string)
    ensures StartsWith(s, r) && AllSpace(s[|r|..])
    ensures |r| > 0 ==> !IsSpace(r[|r| - 1])
  {
    s[..|s| - TrailingSpace(s)]
  }

  function Strip(s: string): string {
    RStrip(LStrip(s))
  }

  /** `s.rstrip('\n')`: drop every trailing newline. */
  function RStripNewlines(s: string): (r: string)
    ensures StartsWith(s, r)
    ensures |r| > 0 ==> r[|r| - 1] != '\n'
    ensures forall i :: |r| <= i < |s| ==> s[i] == '\n'
  {
    if |s| > 0 && s[|s| - 1] == '\n' then RStripNewlines(s[..|s| - 1]) else s
  }

  /** The longest prefix of `s` without whitespace. */
  function TokenLength(s: string): (r: nat)
    ensures r <= |s| && NoSpace(s[..r])
    ensures r < |s| ==> IsSpace(s[r])
  {
    if |s| == 0 || IsSpace(s[0]) then 0 else 1 + TokenLength(s[1..])
  }

  /** The longest prefix of `s` made of `\w` characters. */
  function WordLength(s: string): (r: nat)
    ensures r <= |s|
    ensures forall i :: 0 <= i < r ==> IsWordChar(s[i])
    ensures r < |s| ==> !IsWordChar(s[r])
  {
    if |s| == 0 || !IsWordChar(s[0]) then 0 else 1 + WordLength(s[1..])
  }

  /** `s.split()` with no argument: the maximal runs of non-whitespace. */
  function Words(s: string): (r: seq<string>)
    decreases |s|
  {
    var t := LStrip(s);
    if |t| == 0 then [] else
      var n := TokenLength(t);
      [t[..n]] + Words(t[n..])
  }

  /** `sep.join(xs)`. */
  function Join(sep: string, xs: seq<string>): string {
    if |xs| == 0 then ""
    else if |xs| == 1 then xs[0]
    else xs[0] + sep + Join(sep, xs[1..])
  }

  /** `s.split(c)`: the pieces between occurrences of `c`, empty pieces kept. */
  function SplitOn(s: string, c: char): (r: seq<string>)
    ensures |r| >= 1
    ensures forall i :: 0 <= i < |r| ==> c !in r[i]
  {
    if |s| == 0 then [""]
    else
      var rest := SplitOn(s[1..], c);
      if s[0] == c then [""] + rest else [[s[0]] + rest[0]] + rest[1..]
  }

  /** Joining the pieces of a split with the separator gives the text back. */
  lemma {:induction false} JoinSplitOn(s: string, c: char)
    ensures Join([c], SplitOn(s, c)) == s
  {
    if |s| > 0 {
      var rest := SplitOn(s[1..], c);
      JoinSplitOn(s[1..], c);
      if s[0] == c {
        assert s == [c] + s[1..];
      } else {
        if |rest| == 1 {
          assert Join([c], SplitOn(s, c)) == [s[0]] + rest[0];
        } else {
          assert Join([c], rest) == rest[0] + [c] + Join([c], rest[1..]);
        }
        assert s == [s[0]] + s[1..];
      }
    }
  }

  /** Splitting a join gives the pieces back when no piece holds the separator. */
  lemma {:induction false} SplitOnJoin(xs: seq<string>, c: char)
    requires |xs| >= 1
    requires forall i :: 0 <= i < |xs| ==> c !in xs[i]
    ensures SplitOn(Join([c], xs), c) == xs
  {
    if |xs| == 1 {
      SplitOnNoSeparator(xs[0], c);
    } else {
      SplitOnJoin(xs[1..], c);
      SplitOnAppend(xs[0], c, Join([c], xs[1..]));
      assert [xs[0]] + xs[1..] == xs;
    }
  }

  lemma {:induction false} SplitOnNoSeparator(s: string, c: char)
    requires c !in s
    ensures SplitOn(s, c) == [s]
  {
    if |s| > 0 {
      SplitOnNoSeparator(s[1..], c);
      assert [s[0]] + s[1..] == s;
    }
  }

  lemma {:induction false} SplitOnAppend(a: string, c: char, b: string)
    requires c !in a
    ensures SplitOn(a + [c] + b, c) == [a] + SplitOn(b, c)
  {
    if |a| == 0 {
      assert a + [c] + b == [c] + b;
      assert ([c] + b)[1..] == b;
    } else {
      assert (a + [c] + b)[1..] == a[1..] + [c] + b;
      SplitOnAppend(a[1..], c, b);
      assert [a[0]] + a[1..] == a;
    }
  }

  /** `" ".join` of whitespace-free, non-empty words splits back into the same words. */
  lemma {:induction false} WordsJoin(xs: seq<string>)
    requires forall i :: 0 <= i < |xs| ==> |xs[i]| > 0 && NoSpace(xs[i])
    ensures Words(Join(" ", xs)) == xs
  {
    if |xs| == 1 {
      WordsJoinOne(xs[0]);
      assert xs == [xs[0]];
    } else if |xs| > 1 {
      var tail := xs[1..];
      assert xs == [xs[0]] + tail;
      WordsJoin(tail);
      WordsJoinStep(xs[0], tail);
    }
  }

  lemma WordsJoinOne(x: string)
    requires |x| > 0 && NoSpace(x)
    ensures Words(Join(" ", [x])) == [x]
  {
    WordsFirst(x, "");
    assert x + "" == x;
  }

  lemma WordsJoinStep(x: string, tail: seq<string>)
    requires |x| > 0 && NoSpace(x) && |tail| > 0
    requires Words(Join(" ", tail)) == tail
    ensures Words(Join(" ", [x] + tail)) == [x] + tail
  {
    JoinCons(x, tail);
    WordsAfterWord(x, Join(" ", tail));
  }

  lemma JoinCons(x: string, tail: seq<string>)
    requires |tail| > 0
    ensures Join(" ", [x] + tail) == x + (" " + Join(" ", tail))
  {
    var xs := [x] + tail;
    assert |xs| > 1 && xs[0] == x && xs[1..] == tail;
    var j := Join(" ", tail);
    assert Join(" ", xs) == x + " " + j;
    assert x + " " + j == x + (" " + j);
  }

  lemma WordsAfterWord(x: string, rest: string)
    requires |x| > 0 && NoSpace(x)
    ensures Words(x + (" " + rest)) == [x] + Words(rest)
  {
    WordsFirst(x, " " + rest);
    WordsSpaceCons(rest);
  }

  /** A leading word followed by whitespace (or nothing) is the first word. */
  lemma WordsFirst(x: string, b: string)
    requires |x| > 0 && NoSpace(x)
    requires |b| == 0 || IsSpace(b[0])
    ensures Words(x + b) == [x] + Words(b)
  {
    var s := x + b;
    assert LStrip(s) == s;
    TokenLengthAppend(x, b);
    assert s[..|x|] == x && s[|x|..] == b;
  }

  lemma WordsSpaceCons(b: string)
    ensures Words(" " + b) == Words(b)
  {
    LStripSpaceCons(' ', b);
  }

  lemma {:induction false} TokenLengthAppend(a: string, b: string)
    requires NoSpace(a)
    requires |b| == 0 || IsSpace(b[0])
    ensures TokenLength(a + b) == |a|
  {
    if |a| > 0 {
      assert (a + b)[1..] == a[1..] + b;
      TokenLengthAppend(a[1..], b);
    } else {
      assert a + b == b;
    }
  }

  lemma LStripSpaceCons(c: char, r: string)
    requires IsSpace(c)
    ensures LStrip([c] + r) == LStrip(r)
  {
    assert ([c] + r)[1..] == r;
  }

  /** Splitting again after a split-and-join changes nothing. */
  lemma WordsNormalised(s: string)
    ensures Words(Join(" ", Words(s))) == Words(s)
  {
    WordsAreWords(s);
    WordsJoin(Words(s));
  }

  /** Every piece of `s.split()` is a non-empty run without whitespace. */
  lemma {:induction false} WordsAreWords(s: string)
    ensures forall i :: 0 <= i < |Words(s)| ==> |Words(s)[i]| > 0 && NoSpace(Words(s)[i])
    decreases |s|
  {
    var t := LStrip(s);
    if |t| > 0 {
      var n := TokenLength(t);
      WordsAreWords(t[n..]);
    }
  }

  /* ---------- lexicographic order on strings ---------- */

  /** Python's `<` on byte strings: the first differing character decides, and a proper prefix is smaller. */
  predicate Less(a: string, b: string)
    decreases |a|
  {
    |b| > 0 && (|a| == 0 || a[0] < b[0] || (a[0] == b[0] && Less(a[1..], b[1..])))
  }

  predicate LessEq(a: string, b: string) {
    a == b || Less(a, b)
  }

  lemma {:induction false} LessIrreflexive(a: string)
    ensures !Less(a, a)
  {
    if |a| > 0 {
      LessIrreflexive(a[1..]);
    }
  }

  lemma {:induction false} LessTransitive(a: string, b: string, c: string)
    requires Less(a, b) && Less(b, c)
    ensures Less(a, c)
  {
    if |a| > 0 && a[0] == b[0] && b[0] == c[0] {
      LessTransitive(a[1..], b[1..], c[1..]);
    }
  }

  lemma {:induction false} LessTotal(a: string, b: string)
    ensures a == b || Less(a, b) || Less(b, a)
  {
    if |a| > 0 && |b| > 0 && a[0] == b[0] {
      LessTotal(a[1..], b[1..]);
      if a[1..] == b[1..] {
        assert a == [a[0]] + a[1..] && b == [b[0]] + b[1..];
      }
    }
  }

  lemma LessAsymmetric(a: string, b: string)
    requires Less(a, b)
    ensures !Less(b, a)
  {
    if Less(b, a) {
      LessTransitive(a, b, a);
      LessIrreflexive(a);
    }
  }

  lemma LessEqAntisymmetric(a: string, b: string)
    requires LessEq(a, b) && LessEq(b, a)
    ensures a == b
  {
    if a != b {
      LessAsymmetric(a, b);
    }
  }

  lemma LessEqTransitive(a: string, b: string, c: string)
    requires LessEq(a, b) && LessEq(b, c)
    ensures LessEq(a, c)
  {
    if a != b && b != c {
      LessTransitive(a, b, c);
    }
  }

  /* ---------- repr ---------- */

  /** A printable byte: neither a control character nor DEL or above. */
  predicate Printable(c: char) {
    ' ' <= c && c as int < 127
  }

  function HexDigit(d: nat): (c: char)
    requires d < 16
    ensures Printable(c) && c != '\'' && c != '"' && c != '\\'
  {
    if d < 10 then ('0' as int + d) as char else ('a' as int + d - 10) as char
  }

  /** The quote Python 2's `repr` of a byte string uses: `"` when it holds `'` and no `"`, else `'`. */
  function ReprQuote(s: string): (q: char)
    ensures q == '\'' || q == '"'
  {
    if '\'' in s && '"' !in s then '"' else '\''
  }

  /** One byte as `repr` writes it between quotes `q`. */
  function ReprChar(c: char, q: char): (r: string)
    requires q == '\'' || q == '"'
    ensures 1 <= |r| <= 4 && '\n' !in r
    ensures Printable(c) && c != q && c != '\\' ==> r == [c]
  {
    if c == q || c == '\\' then ['\\', c]
    else if c == '\t' then "\\t"
    else if c == '\n' then "\\n"
    else if c == '\r' then "\\r"
    else if !Printable(c) then "\\x" + [HexDigit(c as int % 256 / 16), HexDigit(c as int % 16)]
    else [c]
  }

  function ReprBody(s: string, q: char): (r: string)
    requires q == '\'' || q == '"'
    ensures '\n' !in r
  {
    if |s| == 0 then "" else ReprChar(s[0], q) + ReprBody(s[1..], q)
  }

  /**
   * Python 2's `repr` of a byte string: the bytes between quotes, with the
   * quote and the backslash escaped, and tab, newline, carriage return and
   * every other non-printable byte written as an escape.
   */
  function PyRepr(s: string): (r: string)
    ensures |r| >= 2 && r[0] == r[|r| - 1] == ReprQuote(s)
    ensures '\n' !in r
  {
    var q := ReprQuote(s);
    var r := [q] + ReprBody(s, q) + [q];
    assert r[1..|r| - 1] == ReprBody(s, q);
    r
  }

  /** A string of printable bytes without a quote or backslash is its own body. */
  lemma {:induction false} ReprBodyPlain(s: string, q: char)
    requires q == '\'' || q == '"'
    requires forall i :: 0 <= i < |s| ==> Printable(s[i]) && s[i] != q && s[i] != '\\'
    ensures ReprBody(s, q) == s
  {
    if |s| > 0 {
      ReprBodyPlain(s[1..], q);
    }
  }

  /** `repr` of printable bytes without a quote or backslash is the bytes between single quotes. */
  lemma ReprPlain(s: string)
    requires forall i :: 0 <= i < |s| ==> Printable(s[i]) && s[i] != '\'' && s[i] != '"' && s[i] != '\\'
    ensures PyRepr(s) == "'" + s + "'"
  {
    assert ReprQuote(s) == '\'';
    ReprBodyPlain(s, '\'');
  }
}
