/**
 * Forcing Galera's `safe_to_bootstrap` flag (`force_safe_to_bootstrap` in
 * systemcloud/galera.py): the state file is rewritten in place, line by
 * line, until the first line matching
 * `^\s*safe_to_bootstrap:\s*(\S+)\s*$` has been replaced by a line of the
 * same length.
 *
 * The source replaces the WHOLE match (the entire line, newline included)
 * by `1` padded with spaces; the corrected rewrite replaces only the value.
 * Both are modelled below: the agent performs the rewrite as written, and
 * the corrected one, marked as such, is what the rewrite evidently intends.
 */
module GaleraSafeToBootstrap {
  import opened Strings
  import opened Wrappers
  import opened GaleraGrastate

  const SAFE_KEY: string := "safe_to_bootstrap:"

  /**
   * Where the pattern matched in a line: the end of the leading
   * whitespace, and the start and length of the value `(\S+)`.
   */
  datatype SafeMatch = SafeMatch(lead: nat, start: nat, len: nat)

  function Spaces(n: nat): (r: string)
    ensures |r| == n && AllSpace(r)
    ensures forall i :: 0 <= i < n ==> r[i] == ' '
  {
    if n == 0 then "" else " " + Spaces(n - 1)
  }

  /**
   * `\s*(\S+)\s*$` on the text after the key: the length of the
   * whitespace before the value and of the value, a non-empty run of
   * non-whitespace followed by nothing but whitespace.
   */
  function ValueIn(r: string): (v: Option<(nat, nat)>)
    ensures v.Some? ==> var (a, k) := v.value;
      0 < k && a + k <= |r| && AllSpace(r[..a]) && NoSpace(r[a..a + k]) && AllSpace(r[a + k..])
  {
    var a := LeadingSpace(r);
    var t := r[a..];
    var k := TokenLength(t);
    assert t[..k] == r[a..a + k] && t[k..] == r[a + k..];
    if k > 0 && AllSpace(t[k..]) then Some((a, k)) else None
  }

  /**
   * `re.match(r'^\s*safe_to_bootstrap:\s*(\S+)\s*$', line)`: the key after
   * leading whitespace, then whitespace, one run of non-whitespace, and
   * nothing but whitespace to the end of the line.
   */
  function SafeValue(line: string): Option<SafeMatch> {
    var w := LeadingSpace(line);
    var t := line[w..];
    if StartsWith(t, SAFE_KEY) then
      var v := ValueIn(t[|SAFE_KEY|..]);
      if v.Some? then Some(SafeMatch(w, w + |SAFE_KEY| + v.value.0, v.value.1)) else None
    else None
  }

  /** The line matches the pattern. */
  predicate SafeLine(line: string) {
    SafeValue(line).Some?
  }

  lemma Drop(a: string, b: string)
    ensures (a + b)[|a|..] == b
  {
  }

  /** The leading whitespace before a non-space character is counted exactly. */
  lemma LeadingSpaceOf(pad: string, x: string)
    requires AllSpace(pad) && |x| > 0 && !IsSpace(x[0])
    ensures LeadingSpace(pad + x) == |pad|
  {
    LStripPadded(pad, x);
  }

  lemma ValueInOf(pad: string, token: string, trail: string)
    requires AllSpace(pad) && |token| > 0 && NoSpace(token) && AllSpace(trail)
    ensures ValueIn(pad + (token + trail)) == Some((|pad|, |token|))
  {
    LeadingSpaceOf(pad, token + trail);
    Drop(pad, token + trail);
    TokenLengthAppend(token, trail);
    Drop(token, trail);
  }

  /** Every line of the shape the pattern describes matches, at the places its parts occupy. */
  lemma SafeValueOf(lead: string, pad: string, token: string, trail: string)
    requires AllSpace(lead) && AllSpace(pad) && |token| > 0 && NoSpace(token) && AllSpace(trail)
    ensures var m := SafeValue(lead + (SAFE_KEY + (pad + (token + trail))));
      m.Some? && m.value.lead == |lead| && m.value.start == |lead| + |SAFE_KEY| + |pad| && m.value.len == |token|
  {
    var rest := pad + (token + trail);
    SafeLineParts(lead, pad, token, trail);
    SafeValueAt(lead + (SAFE_KEY + rest), |lead|, rest, |pad|, |token|, |lead| + |SAFE_KEY| + |pad|);
  }

  /** Where the parts of a line of that shape lie, as the pattern reads them. */
  lemma SafeLineParts(lead: string, pad: string, token: string, trail: string)
    requires AllSpace(lead) && AllSpace(pad) && |token| > 0 && NoSpace(token) && AllSpace(trail)
    ensures var rest := pad + (token + trail);
      var x := SAFE_KEY + rest;
      var line := lead + x;
      LeadingSpace(line) == |lead| && line[|lead|..] == x && StartsWith(x, SAFE_KEY) && x[|SAFE_KEY|..] == rest &&
      ValueIn(rest) == Some((|pad|, |token|))
  {
    var rest := pad + (token + trail);
    var x := SAFE_KEY + rest;
    assert x[0] == 's';
    LeadingSpaceOf(lead, x);
    Drop(lead, x);
    assert x[..|SAFE_KEY|] == SAFE_KEY;
    Drop(SAFE_KEY, rest);
    ValueInOf(pad, token, trail);
  }

  /** The match is read off the leading whitespace, the key and the value after it. */
  lemma SafeValueAt(line: string, w: nat, rest: string, a: nat, k: nat, start: nat)
    requires w <= |line| && LeadingSpace(line) == w
    requires StartsWith(line[w..], SAFE_KEY) && line[w..][|SAFE_KEY|..] == rest
    requires ValueIn(rest) == Some((a, k)) && start == w + |SAFE_KEY| + a
    ensures SafeValue(line) == Some(SafeMatch(w, start, k))
  {
    var t := line[w..];
    assert StartsWith(t, SAFE_KEY);
    var v := ValueIn(t[|SAFE_KEY|..]);
    assert v == Some((a, k));
    assert v.value.0 == a && v.value.1 == k;
    var r := SafeValue(line);
    assert r.Some?;
    assert r.value.lead == w && r.value.start == start && r.value.len == k;
    assert r.value == SafeMatch(w, start, k);
  }

  lemma Assoc(a: string, b: string, c: string)
    ensures (a + b) + c == a + (b + c)
  {
  }

  lemma AllSpaceAppend(a: string, b: string)
    requires AllSpace(a) && AllSpace(b)
    ensures AllSpace(a + b)
  {
    assert forall i :: 0 <= i < |a + b| ==> (a + b)[i] == if i < |a| then a[i] else b[i - |a|];
  }

  lemma SplitAt(s: string, i: nat, j: nat)
    requires i <= j <= |s|
    ensures s[..j] == s[..i] + s[i..j]
  {
  }

  lemma SliceTake(s: string, i: nat, j: nat)
    requires i + j <= |s|
    ensures s[i..][..j] == s[i..i + j]
  {
  }

  /** The text before the value of a matching line is whitespace, the key and whitespace. */
  lemma BeforeValue(line: string)
    requires SafeLine(line)
    ensures var m := SafeValue(line).value;
      var p := m.lead + |SAFE_KEY|;
      var v := line[p..];
      ValueIn(v).Some? && line[..p] == line[..m.lead] + SAFE_KEY && AllSpace(line[..m.lead])
  {
    var m := SafeValue(line).value;
    var w := LeadingSpace(line);
    SplitAt(line, w, w + |SAFE_KEY|);
    SliceTake(line, w, |SAFE_KEY|);
  }

  /** `'1'.ljust(len(m.group(0)))` as written: the whole matched line becomes `1` and spaces. */
  function SafeLineRewriteAsWritten(line: string): (r: string)
    requires SafeLine(line)
    ensures |r| == |line|
  {
    "1" + Spaces(|line| - 1)
  }

  /** The rewrite as written leaves a line that is neither an entry nor a comment, and drops the newline. */
  lemma AsWrittenLosesKey(line: string)
    requires SafeLine(line)
    ensures ClassifyLine(SafeLineRewriteAsWritten(line)) == Corrupt
    ensures '\n' !in SafeLineRewriteAsWritten(line)
  {
    var r := SafeLineRewriteAsWritten(line);
    LStripPadded([], r);
    assert [] + r == r;
    assert r[1] == ' ';
    assert r[..1] == "1" && IsWordChar(r[0]) && !IsWordChar(r[1]);
    assert forall i :: 0 <= i < |r| ==> r[i] != '\n';
  }

  /** The text after the key with its value replaced by `1` and spaces, keeping the whitespace around it. */
  function ValueRewrite(v: string): (r: string)
    requires ValueIn(v).Some?
    ensures |r| == |v|
  {
    var (a, k) := ValueIn(v).value;
    v[..a] + ("1" + (Spaces(k - 1) + v[a + k..]))
  }

  /** The rewritten value is `1` between the same whitespace as before. */
  lemma ValueRewriteParts(v: string)
    requires ValueIn(v).Some?
    ensures var a := ValueIn(v).value.0;
      var tail := ValueRewrite(v)[a + 1..];
      ValueRewrite(v) == v[..a] + ("1" + tail) && AllSpace(v[..a]) && AllSpace(tail)
  {
    var (a, k) := ValueIn(v).value;
    var tail := Spaces(k - 1) + v[a + k..];
    AllSpaceAppend(Spaces(k - 1), v[a + k..]);
    assert ValueRewrite(v)[a + 1..] == tail;
  }

  /** The value rewrite keeps the length and every newline where it was. */
  lemma ValueRewriteNewlines(v: string)
    requires ValueIn(v).Some?
    ensures |ValueRewrite(v)| == |v|
    ensures forall i :: 0 <= i < |v| ==> (ValueRewrite(v)[i] == '\n' <==> v[i] == '\n')
  {
    var (a, k) := ValueIn(v).value;
    var r := ValueRewrite(v);
    assert |r| == |v|;
    forall i | 0 <= i < |v|
      ensures r[i] == '\n' <==> v[i] == '\n'
    {
      if i < a {
        assert r[i] == v[..a][i] == v[i];
      } else if i < a + k {
        assert v[i] == v[a..a + k][i - a];
        assert r[i] == '1' || r[i] == Spaces(k - 1)[i - a - 1];
      } else {
        assert r[i] == v[a + k..][i - a - k] == v[i];
      }
    }
  }

  /** The evidently intended rewrite: the value becomes `1`, padded with spaces to its old length. */
  function SafeLineRewriteCorrected(line: string): (r: string)
    requires SafeLine(line)
    ensures |r| == |line|
  {
    var p := SafeValue(line).value.lead + |SAFE_KEY|;
    BeforeValue(line);
    line[..p] + ValueRewrite(line[p..])
  }

  /** The corrected rewrite keeps the line's length and its newline. */
  lemma CorrectedRewriteKeepsNewlines(line: string)
    requires SafeLine(line)
    ensures |SafeLineRewriteCorrected(line)| == |line|
    ensures forall i :: 0 <= i < |line| ==> (SafeLineRewriteCorrected(line)[i] == '\n' <==> line[i] == '\n')
  {
    var p := SafeValue(line).value.lead + |SAFE_KEY|;
    BeforeValue(line);
    var v := line[p..];
    ValueRewriteNewlines(v);
    var r := SafeLineRewriteCorrected(line);
    forall i | 0 <= i < |line|
      ensures r[i] == '\n' <==> line[i] == '\n'
    {
      if i >= p {
        assert r[i] == ValueRewrite(v)[i - p] && line[i] == v[i - p];
      }
    }
  }

  lemma SafeKeyIsKey()
    ensures IsKey("safe_to_bootstrap")
  {
    KeyChars("safe_to_bootstrap");
  }

  /** The corrected rewrite reads back as `safe_to_bootstrap: 1`. */
  lemma CorrectedRewriteReadsBack(line: string)
    requires SafeLine(line)
    ensures ClassifyLine(SafeLineRewriteCorrected(line)) == Entry("safe_to_bootstrap", "1")
  {
    var m := SafeValue(line).value;
    var p := m.lead + |SAFE_KEY|;
    var v := line[p..];
    BeforeValue(line);
    ValueRewriteParts(v);
    var a := ValueIn(v).value.0;
    var tail := ValueRewrite(v)[a + 1..];
    var rest := v[..a] + ("1" + tail);
    assert SAFE_KEY == "safe_to_bootstrap" + ":";
    Assoc(line[..m.lead], SAFE_KEY, rest);
    SafeEntryLine(SafeLineRewriteCorrected(line), line[..m.lead], v[..a], tail);
  }

  lemma SafeEntryLine(x: string, lead: string, pad: string, tail: string)
    requires x == lead + ("safe_to_bootstrap" + ":" + (pad + ("1" + tail)))
    requires AllSpace(lead) && AllSpace(pad) && AllSpace(tail)
    ensures ClassifyLine(x) == Entry("safe_to_bootstrap", "1")
  {
    SafeKeyIsKey();
    PaddedEntryLine(lead, "safe_to_bootstrap", pad, "1", tail);
  }

  /** A line the pattern matches reads as the `safe_to_bootstrap` entry. */
  lemma MatchIsEntry(line: string)
    requires SafeLine(line)
    ensures ClassifyLine(line).Entry? && ClassifyLine(line).key == "safe_to_bootstrap"
  {
    var lead, pad, token, trail := SafeLineShape(line);
    SafeKeyIsKey();
    assert SAFE_KEY == "safe_to_bootstrap" + ":";
    PaddedEntryLine(lead, "safe_to_bootstrap", pad, token, trail);
  }

  /** A line the pattern matches is whitespace, the key, whitespace, the value and whitespace. */
  lemma SafeLineShape(line: string) returns (lead: string, pad: string, token: string, trail: string)
    requires SafeLine(line)
    ensures line == lead + (SAFE_KEY + (pad + (token + trail)))
    ensures AllSpace(lead) && AllSpace(pad) && |token| > 0 && NoSpace(token) && AllSpace(trail)
  {
    var m := SafeValue(line).value;
    var p := m.lead + |SAFE_KEY|;
    BeforeValue(line);
    var v := line[p..];
    lead := line[..m.lead];
    pad, token, trail := ValueShape(v);
    JoinParts(line, p, lead, v);
  }

  lemma JoinParts(line: string, p: nat, lead: string, v: string)
    requires p <= |line| && line[..p] == lead + SAFE_KEY && line[p..] == v
    ensures line == lead + (SAFE_KEY + v)
  {
    assert line == line[..p] + line[p..];
    Assoc(lead, SAFE_KEY, v);
  }

  lemma ValueShape(v: string) returns (pad: string, token: string, trail: string)
    requires ValueIn(v).Some?
    ensures v == pad + (token + trail)
    ensures AllSpace(pad) && |token| > 0 && NoSpace(token) && AllSpace(trail)
  {
    var a := ValueIn(v).value.0;
    var k := ValueIn(v).value.1;
    pad, token, trail := v[..a], v[a..a + k], v[a + k..];
    ThreeParts(v, a, a + k);
  }

  lemma ThreeParts(s: string, i: nat, j: nat)
    requires i <= j <= |s|
    ensures s == s[..i] + (s[i..j] + s[j..])
  {
  }

  lemma TakeConcat(a: string, b: string, c: string)
    ensures (a + (b + c))[..|a| + |b|] == a + b
  {
  }

  lemma DropConcat(a: string, b: string, c: string)
    ensures (a + (b + c))[|a| + |b|..] == c
  {
  }

  /** The value is replaced by `1` and spaces, between the same whitespace. */
  lemma ValueRewriteOf(pad: string, token: string, trail: string)
    requires AllSpace(pad) && |token| > 0 && NoSpace(token) && AllSpace(trail)
    ensures ValueIn(pad + (token + trail)) == Some((|pad|, |token|))
    ensures ValueRewrite(pad + (token + trail)) == pad + ("1" + (Spaces(|token| - 1) + trail))
  {
    var v := pad + (token + trail);
    ValueInOf(pad, token, trail);
    assert v[..|pad|] == pad;
    DropConcat(pad, token, trail);
  }

  /** Every line of the shape the pattern describes is rewritten to the same shape with the value `1` and spaces. */
  lemma SafeLineRewriteCorrectedOf(lead: string, pad: string, token: string, trail: string)
    requires AllSpace(lead) && AllSpace(pad) && |token| > 0 && NoSpace(token) && AllSpace(trail)
    ensures SafeLine(lead + (SAFE_KEY + (pad + (token + trail))))
    ensures SafeLineRewriteCorrected(lead + (SAFE_KEY + (pad + (token + trail)))) ==
      lead + (SAFE_KEY + (pad + ("1" + (Spaces(|token| - 1) + trail))))
  {
    var rest := pad + (token + trail);
    SafeValueOf(lead, pad, token, trail);
    TakeConcat(lead, SAFE_KEY, rest);
    DropConcat(lead, SAFE_KEY, rest);
    ValueRewriteOf(pad, token, trail);
    Assoc(lead, SAFE_KEY, pad + ("1" + (Spaces(|token| - 1) + trail)));
  }
}
