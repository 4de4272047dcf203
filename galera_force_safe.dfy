/**
 * `force_safe_to_bootstrap` (systemcloud/galera.py) on the state file:
 * read line by line from the start, and rewrite the first line that
 * matches in place, with a line of the same length.
 *
 * The rewrite loop is generic over the substitution made on a line. The
 * agent runs it with the substitution as written (`AsWrittenSubstitution`),
 * which turns the whole matched line, newline included, into `1` and
 * spaces; the members marked `Corrected` run it with the evidently
 * intended substitution, which replaces the value alone.
 */
module GaleraForceSafe {
  import opened Wrappers
  import opened Strings
  import opened GaleraGrastate
  import opened GaleraSafeToBootstrap
  import opened GaleraState
  import opened OcfExceptions
  import opened Numerals

  /** What `Lines` promises of its pieces: non-empty lines, each ended by a newline but perhaps the last. */
  predicate WellLines(ls: seq<string>) {
    (forall i :: 0 <= i < |ls| ==> |ls[i]| > 0 && OneLine(ls[i])) &&
    (forall i :: 0 <= i < |ls| - 1 ==> ls[i][|ls[i]| - 1] == '\n')
  }

  /**
   * The substitution `re.subn` makes on one line: the rewritten line when
   * the pattern matches it, None when it leaves the line alone.
   */
  type Substitution = string -> Option<string>

  /** A substitution that writes back exactly as many characters as it read, as an in-place rewrite must. */
  ghost predicate KeepsLength(rw: Substitution) {
    forall l :: rw(l).Some? ==> |rw(l).value| == |l|
  }

  /** The lines with the first one the substitution applies to rewritten, and the others as they were. */
  function RewriteFirst(ls: seq<string>, rw: Substitution): (r: seq<string>)
    ensures |r| == |ls|
  {
    if |ls| == 0 then []
    else if rw(ls[0]).Some? then [rw(ls[0]).value] + ls[1..]
    else [ls[0]] + RewriteFirst(ls[1..], rw)
  }

  /** `re.subn(r'^\s*safe_to_bootstrap:\s*(\S+)\s*$', ..., line)` with the corrected replacement. */
  function SafeSubstitutionCorrected(line: string): Option<string> {
    if SafeLine(line) then Some(SafeLineRewriteCorrected(line)) else None
  }

  /** The state file after `force_safe_to_bootstrap` with the corrected replacement. */
  function ForcedCorrected(s: string): string {
    Concat(RewriteFirst(Lines(s), SafeSubstitutionCorrected))
  }

  /* ---------- lines of a file ---------- */

  lemma {:induction false} ConcatAppend(a: seq<string>, b: seq<string>)
    ensures Concat(a + b) == Concat(a) + Concat(b)
  {
    if |a| > 0 {
      assert (a + b)[1..] == a[1..] + b;
      ConcatAppend(a[1..], b);
    } else {
      assert a + b == b;
    }
  }

  /** The file is the lines read so far followed by the rest. */
  lemma ConcatSplit(ls: seq<string>, k: nat)
    requires k <= |ls|
    ensures Concat(ls) == Concat(ls[..k]) + Concat(ls[k..])
  {
    assert ls == ls[..k] + ls[k..];
    ConcatAppend(ls[..k], ls[k..]);
  }

  /** The rest of the file starts with its next line. */
  lemma ConcatCons(ls: seq<string>)
    requires |ls| > 0
    ensures Concat(ls) == ls[0] + Concat(ls[1..])
  {
  }

  /** Reading on from line `k`: the next `readline` returns exactly line `k`. */
  lemma NextLineIs(ls: seq<string>, k: nat)
    requires WellLines(ls) && k < |ls|
    ensures LineLength(Concat(ls[k..])) == |ls[k]|
    ensures Concat(ls[k..]) == ls[k] + Concat(ls[k + 1..])
  {
    var rest := ls[k..];
    assert rest[0] == ls[k] && rest[1..] == ls[k + 1..];
    ConcatCons(rest);
    if k == |ls| - 1 {
      assert ls[k + 1..] == [];
    }
    LineLengthOf(ls[k], Concat(ls[k + 1..]));
  }

  /** The line `readline` returns at `pos` is the next line of the file. */
  lemma NextLine(s: string, pos: nat, n: nat)
    requires 0 < n && pos + n <= |s|
    requires forall i :: pos <= i < pos + n - 1 ==> s[i] != '\n'
    requires pos + n == |s| || s[pos + n - 1] == '\n'
    ensures LineLength(s[pos..]) == n
  {
    var l := s[pos..pos + n];
    assert OneLine(l);
    LineLengthOf(l, s[pos + n..]);
    assert s[pos..] == l + s[pos + n..];
  }

  /* ---------- the rewrite, line by line ---------- */

  /** Lines the substitution leaves alone are kept. */
  lemma RewriteSkips(ls: seq<string>, k: nat, rw: Substitution)
    requires k < |ls| && rw(ls[k]).None?
    ensures ls[..k] + RewriteFirst(ls[k..], rw) == ls[..k + 1] + RewriteFirst(ls[k + 1..], rw)
  {
    var rest := ls[k..];
    assert rest[0] == ls[k] && rest[1..] == ls[k + 1..];
    assert ls[..k + 1] == ls[..k] + [ls[k]];
  }

  /** The first line the substitution applies to is rewritten and the lines after it are kept. */
  lemma RewriteApplies(ls: seq<string>, k: nat, rw: Substitution)
    requires k < |ls| && rw(ls[k]).Some?
    ensures ls[..k] + RewriteFirst(ls[k..], rw) == ls[..k] + [rw(ls[k]).value] + ls[k + 1..]
  {
    var rest := ls[k..];
    assert rest[0] == ls[k] && rest[1..] == ls[k + 1..];
  }

  /* ---------- the file, rewritten in place ---------- */

  /** `f.seek(pos); f.write(line)`: the characters from `pos` on are overwritten by `line`. */
  method WriteAt(f: array<char>, pos: nat, line: string)
    requires pos + |line| <= f.Length
    modifies f
    ensures f[..] == old(f[..])[..pos] + line + old(f[..])[pos + |line|..]
  {
    var j := 0;
    while j < |line|
      invariant 0 <= j <= |line|
      invariant forall i :: 0 <= i < f.Length ==> f[i] == if pos <= i < pos + j then line[i - pos] else old(f[i])
    {
      f[pos + j] := line[j];
      j := j + 1;
    }
  }

  /** `f.readline()` at `pos`: the length of the line starting there, up to and including its newline. */
  method ReadLine(f: array<char>, pos: nat) returns (n: nat)
    requires pos < f.Length
    ensures LineLength(f[..][pos..]) == n
  {
    n := 1;
    while pos + n < f.Length && f[pos + n - 1] != '\n'
      invariant 1 <= n <= f.Length - pos
      invariant forall i :: pos <= i < pos + n - 1 ==> f[i] != '\n'
    {
      n := n + 1;
    }
    NextLine(f[..], pos, n);
  }

  /**
   * The loop of `force_safe_to_bootstrap`: read the file line by line,
   * and overwrite in place the first line the substitution applies to.
   */
  method RewriteFirstLine(f: array<char>, rw: Substitution)
    requires KeepsLength(rw)
    modifies f
    ensures f[..] == Concat(RewriteFirst(Lines(old(f[..])), rw))
  {
    ghost var ls := Lines(f[..]);
    assert WellLines(ls);
    RewriteLines(f, rw, ls);
  }

  method RewriteLines(f: array<char>, rw: Substitution, ghost ls: seq<string>)
    requires KeepsLength(rw) && WellLines(ls) && Concat(ls) == f[..]
    modifies f
    ensures f[..] == Concat(RewriteFirst(ls, rw))
  {
    ghost var s := f[..];
    ghost var k := 0;
    var pos := 0;
    assert ls[..0] == [] && ls[0..] == ls;
    while pos < f.Length
      invariant 0 <= pos <= f.Length && k <= |ls|
      invariant f[..] == s
      invariant s[..pos] == Concat(ls[..k]) && s[pos..] == Concat(ls[k..])
      invariant RewriteFirst(ls, rw) == ls[..k] + RewriteFirst(ls[k..], rw)
      decreases f.Length - pos
    {
      var n := ReadLine(f, pos);
      ReadNextLine(s, ls, k, pos, n);
      var line := f[pos..pos + n];
      assert line == ls[k];
      var changed := rw(line);
      if changed.Some? {
        OverwriteLine(f, rw, s, ls, k, pos, n, changed.value);
        return;
      }
      RewriteSkips(ls, k, rw);
      pos := pos + n;
      k := k + 1;
    }
    AllLinesRead(s, ls, k, pos);
    assert ls[..k] == ls && ls[k..] == [];
    assert RewriteFirst(ls, rw) == ls;
  }

  /** Line `k`, found at `pos`, is overwritten by its rewrite, which leaves the rewritten lines back to back. */
  method OverwriteLine(f: array<char>, rw: Substitution, ghost s: string, ghost ls: seq<string>, ghost k: nat, pos: nat, n: nat, changed: string)
    requires KeepsLength(rw) && f[..] == s && k < |ls| && pos + n <= |s|
    requires s[..pos] == Concat(ls[..k]) && s[pos..pos + n] == ls[k] && s[pos + n..] == Concat(ls[k + 1..])
    requires rw(ls[k]) == Some(changed)
    requires RewriteFirst(ls, rw) == ls[..k] + RewriteFirst(ls[k..], rw)
    modifies f
    ensures f[..] == Concat(RewriteFirst(ls, rw))
  {
    assert |changed| == n;
    RewriteApplies(ls, k, rw);
    WrittenFile(s, ls, k, pos, changed);
    WriteAt(f, pos, changed);
  }

  /** The line read at `pos` is line `k`, and the positions after it agree. */
  lemma ReadNextLine(s: string, ls: seq<string>, k: nat, pos: nat, n: nat)
    requires WellLines(ls) && k <= |ls| && pos < |s|
    requires s[..pos] == Concat(ls[..k]) && s[pos..] == Concat(ls[k..])
    requires LineLength(s[pos..]) == n
    ensures k < |ls| && pos + n <= |s| && s[pos..pos + n] == ls[k]
    ensures s[..pos + n] == Concat(ls[..k + 1]) && s[pos + n..] == Concat(ls[k + 1..])
  {
    NextLineIs(ls, k);
    assert s[pos..][..n] == s[pos..pos + n];
    assert s[pos + n..] == s[pos..][n..];
    ConcatSplit(ls[..k + 1], k);
    assert ls[..k + 1][..k] == ls[..k] && ls[..k + 1][k..] == [ls[k]];
    assert s[..pos + n] == s[..pos] + s[pos..pos + n];
  }

  /** After the write the file is the lines back to back, with line `k` replaced by one of the same length. */
  lemma WrittenFile(s: string, ls: seq<string>, k: nat, pos: nat, changed: string)
    requires k < |ls| && |changed| == |ls[k]| && pos + |changed| <= |s|
    requires s[..pos] == Concat(ls[..k]) && s[pos + |changed|..] == Concat(ls[k + 1..])
    ensures s[..pos] + changed + s[pos + |changed|..] == Concat(ls[..k] + [changed] + ls[k + 1..])
  {
    var tail := [changed] + ls[k + 1..];
    assert ls[..k] + [changed] + ls[k + 1..] == ls[..k] + tail;
    ConcatAppend(ls[..k], tail);
    assert tail[0] == changed && tail[1..] == ls[k + 1..];
    ConcatCons(tail);
  }

  /** Once the whole file has been read, every line has been. */
  lemma AllLinesRead(s: string, ls: seq<string>, k: nat, pos: nat)
    requires WellLines(ls) && k <= |ls| && pos == |s|
    requires s[pos..] == Concat(ls[k..])
    ensures k == |ls|
  {
    if k < |ls| {
      NextLineIs(ls, k);
      assert false;
    }
  }

  /* ---------- force_safe_to_bootstrap ---------- */

  lemma CorrectedSubstitutionKeepsLength()
    ensures KeepsLength(SafeSubstitutionCorrected)
  {
  }

  /**
   * `force_safe_to_bootstrap` with the corrected replacement: `f` is the
   * state file opened for update, or null when opening it fails, as it
   * does for a missing file.
   */
  method ForceSafeToBootstrapCorrected(f: array?<char>)
    modifies f
    ensures f != null ==> f[..] == ForcedCorrected(old(f[..]))
  {
    if f == null {
      return;
    }
    CorrectedSubstitutionKeepsLength();
    RewriteFirstLine(f, SafeSubstitutionCorrected);
  }

  /* ---------- what the rewrite does ---------- */

  /** Only the first line the substitution applies to changes. */
  lemma {:induction false} RewriteFirstAt(ls: seq<string>, rw: Substitution, i: nat)
    requires i < |ls| && rw(ls[i]).Some?
    requires forall j :: 0 <= j < i ==> rw(ls[j]).None?
    ensures RewriteFirst(ls, rw) == ls[i := rw(ls[i]).value]
  {
    if i > 0 {
      assert ls[1..][i - 1] == ls[i];
      assert forall j :: 0 <= j < i - 1 ==> ls[1..][j] == ls[j + 1];
      RewriteFirstAt(ls[1..], rw, i - 1);
      assert ls[i := rw(ls[i]).value] == [ls[0]] + ls[1..][i - 1 := rw(ls[i]).value];
    }
  }

  /** When the substitution applies to no line, nothing changes. */
  lemma {:induction false} RewriteFirstNone(ls: seq<string>, rw: Substitution)
    requires forall j :: 0 <= j < |ls| ==> rw(ls[j]).None?
    ensures RewriteFirst(ls, rw) == ls
  {
    if |ls| > 0 {
      assert forall j :: 0 <= j < |ls| - 1 ==> ls[1..][j] == ls[j + 1];
      RewriteFirstNone(ls[1..], rw);
    }
  }

  /** The index of the first line the substitution applies to. */
  function FirstApplies(ls: seq<string>, rw: Substitution): (r: Option<nat>)
    ensures r.Some? ==> r.value < |ls| && rw(ls[r.value]).Some? && forall j :: 0 <= j < r.value ==> rw(ls[j]).None?
    ensures r.None? ==> forall j :: 0 <= j < |ls| ==> rw(ls[j]).None?
  {
    if |ls| == 0 then None
    else if rw(ls[0]).Some? then Some(0)
    else match FirstApplies(ls[1..], rw)
      case None =>
        assert forall j :: 1 <= j < |ls| ==> ls[j] == ls[1..][j - 1];
        None
      case Some(i) =>
        assert forall j :: 1 <= j < i + 1 ==> ls[j] == ls[1..][j - 1];
        Some(i + 1)
  }

  /** A substitution that keeps the length and every newline keeps the file's lines apart as they were. */
  ghost predicate KeepsNewlines(rw: Substitution) {
    forall l :: rw(l).Some? ==>
      |rw(l).value| == |l| && forall i :: 0 <= i < |l| ==> (rw(l).value[i] == '\n' <==> l[i] == '\n')
  }

  /** Splitting the rewritten file into lines gives the rewritten lines. */
  lemma LinesOfRewritten(s: string, rw: Substitution)
    requires KeepsNewlines(rw)
    ensures Lines(Concat(RewriteFirst(Lines(s), rw))) == RewriteFirst(Lines(s), rw)
  {
    var ls := Lines(s);
    assert WellLines(ls);
    match FirstApplies(ls, rw)
    case None =>
      RewriteFirstNone(ls, rw);
      LinesConcat(ls);
    case Some(i) =>
      RewriteFirstAt(ls, rw, i);
      ReplacedLines(ls, i, rw(ls[i]).value);
  }

  /** Replacing one line by one with the same newlines keeps the lines apart as they were. */
  lemma ReplacedLines(ls: seq<string>, i: nat, r: string)
    requires WellLines(ls) && i < |ls|
    requires |r| == |ls[i]| && forall j :: 0 <= j < |r| ==> (r[j] == '\n' <==> ls[i][j] == '\n')
    ensures Lines(Concat(ls[i := r])) == ls[i := r]
  {
    var rs := ls[i := r];
    assert forall j :: 0 <= j < |rs| && j != i ==> rs[j] == ls[j];
    assert |r| > 0 && OneLine(r);
    assert i < |ls| - 1 ==> r[|r| - 1] == '\n';
    LinesConcat(rs);
  }

  lemma CorrectedSubstitutionKeepsNewlines()
    ensures KeepsNewlines(SafeSubstitutionCorrected)
  {
    forall l | SafeSubstitutionCorrected(l).Some?
      ensures |SafeSubstitutionCorrected(l).value| == |l| &&
        forall i :: 0 <= i < |l| ==> (SafeSubstitutionCorrected(l).value[i] == '\n' <==> l[i] == '\n')
    {
      CorrectedRewriteKeepsNewlines(l);
    }
  }

  /** The lines of the forced file are the file's lines with the first matching one rewritten. */
  lemma LinesOfForcedCorrected(s: string)
    ensures Lines(ForcedCorrected(s)) == RewriteFirst(Lines(s), SafeSubstitutionCorrected)
  {
    CorrectedSubstitutionKeepsNewlines();
    LinesOfRewritten(s, SafeSubstitutionCorrected);
  }

  /* ---------- the corrected rewrite leaves the recorded state alone ---------- */

  /** Two readings of a line that differ at most in the value of `safe_to_bootstrap`. */
  predicate SameButFlag(a: LineKind, b: LineKind) {
    a == b || (a.Entry? && b.Entry? && a.key == "safe_to_bootstrap" && b.key == "safe_to_bootstrap")
  }

  /** Line by line, the two files read alike but for the `safe_to_bootstrap` value. */
  predicate ReadAlike(ls: seq<string>, ms: seq<string>) {
    |ls| == |ms| && forall i :: 0 <= i < |ls| ==> SameButFlag(ClassifyLine(ls[i]), ClassifyLine(ms[i]))
  }

  lemma {:induction false} FirstCorruptAlike(ls: seq<string>, ms: seq<string>)
    requires ReadAlike(ls, ms)
    ensures FirstCorrupt(ls) == FirstCorrupt(ms)
  {
    if |ls| > 0 {
      assert ReadAlike(ls[1..], ms[1..]) by {
        forall i | 0 <= i < |ls| - 1
          ensures SameButFlag(ClassifyLine(ls[1..][i]), ClassifyLine(ms[1..][i]))
        {
          assert ls[1..][i] == ls[i + 1] && ms[1..][i] == ms[i + 1];
        }
      }
      FirstCorruptAlike(ls[1..], ms[1..]);
    }
  }

  lemma {:induction false} RawEntriesAlike(ls: seq<string>, ms: seq<string>)
    requires ReadAlike(ls, ms)
    ensures forall k :: k != "safe_to_bootstrap" ==> (k in RawEntries(ls) <==> k in RawEntries(ms))
    ensures forall k :: k != "safe_to_bootstrap" && k in RawEntries(ls) ==> RawEntries(ls)[k] == RawEntries(ms)[k]
  {
    if |ls| > 0 {
      var n := |ls| - 1;
      assert ReadAlike(ls[..n], ms[..n]) by {
        forall i | 0 <= i < n
          ensures SameButFlag(ClassifyLine(ls[..n][i]), ClassifyLine(ms[..n][i]))
        {
          assert ls[..n][i] == ls[i] && ms[..n][i] == ms[i];
        }
      }
      RawEntriesAlike(ls[..n], ms[..n]);
      assert SameButFlag(ClassifyLine(ls[n]), ClassifyLine(ms[n]));
    }
  }

  /** Files that read alike but for `safe_to_bootstrap` give the same result from `read_grastate`. */
  lemma GrastateAlike(file: string, s: string, t: string)
    requires ReadAlike(Lines(s), Lines(t))
    ensures GrastateOf(file, Some(s)) == GrastateOf(file, Some(t))
  {
    var ls, ms := Lines(s), Lines(t);
    FirstCorruptAlike(ls, ms);
    match FirstCorrupt(ls)
    case Some(i) =>
      CorruptLineReported(file, s, i);
      CorruptLineReported(file, t, i);
    case None =>
      CleanFileRead(file, s);
      CleanFileRead(file, t);
      assert FromRaw(file, RawEntries(ls)) == FromRaw(file, RawEntries(ms)) by {
        RawEntriesAlike(ls, ms);
        assert "uuid" != "safe_to_bootstrap" && "seqno" != "safe_to_bootstrap";
        FromRawAlike(file, RawEntries(ls), RawEntries(ms));
      }
  }

  /** `read_grastate` looks only at `uuid` and `seqno` among the entries. */
  lemma FromRawAlike(file: string, r1: map<string, string>, r2: map<string, string>)
    requires ("uuid" in r1 <==> "uuid" in r2) && ("uuid" in r1 ==> r1["uuid"] == r2["uuid"])
    requires ("seqno" in r1 <==> "seqno" in r2) && ("seqno" in r1 ==> r1["seqno"] == r2["seqno"])
    ensures FromRaw(file, r1) == FromRaw(file, r2)
  {
  }

  /** The file forced with the corrected rewrite reads like the original, line by line, but for `safe_to_bootstrap`. */
  lemma ForcedCorrectedReadsAlike(s: string)
    ensures ReadAlike(Lines(s), Lines(ForcedCorrected(s)))
  {
    var ls := Lines(s);
    LinesOfForcedCorrected(s);
    match FirstApplies(ls, SafeSubstitutionCorrected)
    case None =>
      RewriteFirstNone(ls, SafeSubstitutionCorrected);
    case Some(i) =>
      RewriteFirstAt(ls, SafeSubstitutionCorrected, i);
      MatchIsEntry(ls[i]);
      CorrectedRewriteReadsBack(ls[i]);
  }

  /** Forcing `safe_to_bootstrap` with the corrected rewrite never changes what `read_grastate` reports: the same state, or the same error. */
  lemma ForceCorrectedPreservesState(file: string, s: string)
    ensures GrastateOf(file, Some(ForcedCorrected(s))) == GrastateOf(file, Some(s))
  {
    ForcedCorrectedReadsAlike(s);
    GrastateAlike(file, s, ForcedCorrected(s));
  }

  /* ---------- the replacement as written ---------- */

  /** `re.subn` with the replacement as written: the whole matched line, newline included, becomes `1` and spaces. */
  function AsWrittenSubstitution(line: string): Option<string> {
    if SafeLine(line) then Some(SafeLineRewriteAsWritten(line)) else None
  }

  /** The state file after `force_safe_to_bootstrap` as written. */
  function ForcedAsWritten(s: string): string {
    Concat(RewriteFirst(Lines(s), AsWrittenSubstitution))
  }

  lemma AsWrittenKeepsLength()
    ensures KeepsLength(AsWrittenSubstitution)
  {
  }

  /**
   * `force_safe_to_bootstrap` as written, the one the agent runs: `f` is
   * the state file opened for update, or null when opening it fails.
   */
  method ForceSafeToBootstrapAsWritten(f: array?<char>)
    modifies f
    ensures f != null ==> f[..] == ForcedAsWritten(old(f[..]))
  {
    if f == null {
      return;
    }
    AsWrittenKeepsLength();
    RewriteFirstLine(f, AsWrittenSubstitution);
  }

  /* ---------- the state file Galera writes ---------- */

  /** A line starting with anything but whitespace and `sa` does not match. */
  lemma NotSafeLine(line: string)
    requires |line| > 1 && !IsSpace(line[0]) && (line[0] != 's' || line[1] != 'a')
    ensures !SafeLine(line)
  {
    assert LeadingSpace(line) == 0;
    assert line[0..] == line;
  }

  /** The first four lines Galera writes do not match. */
  lemma GaleraLinesBeforeFlag(st: State, safe: string)
    ensures var ls := GrastateLines(st, safe);
      forall j :: 0 <= j < 4 ==> !SafeLine(ls[j])
  {
    var ls := GrastateLines(st, safe);
    NotSafeLine(ls[0]);
    NotSafeLine(ls[1]);
    NotSafeLine(ls[2]);
    assert ls[3][1] == 'e';
    NotSafeLine(ls[3]);
  }

  /** With the corrected rewrite, Galera's `safe_to_bootstrap` line keeps its key and its value becomes `1` padded with spaces. */
  lemma FlagLineRewriteCorrected(v: string)
    requires |v| > 0 && NoSpace(v)
    ensures SafeLine(EntryText("safe_to_bootstrap", " ", v))
    ensures SafeLineRewriteCorrected(EntryText("safe_to_bootstrap", " ", v)) == EntryText("safe_to_bootstrap", " ", "1" + Spaces(|v| - 1))
  {
    var x := EntryText("safe_to_bootstrap", " ", v);
    var y := EntryText("safe_to_bootstrap", " ", "1" + Spaces(|v| - 1));
    FlagLineText(v);
    FlagLineText("1" + Spaces(|v| - 1));
    Assoc("1", Spaces(|v| - 1), "\n");
    RewriteOfParts(x, y, v);
  }

  /** Galera's `safe_to_bootstrap: v` line matches the pattern. */
  lemma FlagLineMatches(v: string)
    requires |v| > 0 && NoSpace(v)
    ensures SafeLine(EntryText("safe_to_bootstrap", " ", v))
  {
    FlagLineText(v);
    SafeValueOf("", " ", v, "\n");
  }

  /**
   * As written, Galera's `safe_to_bootstrap: v` line, newline included,
   * becomes `1` followed by spaces: 20 of them for `safe_to_bootstrap: 0`.
   */
  lemma FlagLineRewriteAsWritten(v: string)
    requires |v| > 0 && NoSpace(v)
    ensures SafeLine(EntryText("safe_to_bootstrap", " ", v))
    ensures SafeLineRewriteAsWritten(EntryText("safe_to_bootstrap", " ", v)) == "1" + Spaces(19 + |v|)
    ensures v == "0" ==> SafeLineRewriteAsWritten(EntryText("safe_to_bootstrap", " ", v)) == "1" + Spaces(20)
  {
    FlagLineMatches(v);
    FlagLineText(v);
  }

  lemma RewriteOfParts(x: string, y: string, v: string)
    requires |v| > 0 && NoSpace(v)
    requires x == "" + (SAFE_KEY + (" " + (v + "\n")))
    requires y == "" + (SAFE_KEY + (" " + ("1" + (Spaces(|v| - 1) + "\n"))))
    ensures SafeLine(x) && SafeLineRewriteCorrected(x) == y
  {
    SafeLineRewriteCorrectedOf("", " ", v, "\n");
  }

  lemma FlagLineText(v: string)
    ensures EntryText("safe_to_bootstrap", " ", v) == "" + (SAFE_KEY + (" " + (v + "\n")))
  {
    EntryTextAssoc("safe_to_bootstrap", " ", v);
    assert SAFE_KEY == "safe_to_bootstrap" + ":";
    assert "" + (SAFE_KEY + (" " + (v + "\n"))) == SAFE_KEY + (" " + (v + "\n"));
  }

  lemma EntryTextAssoc(key: string, pad: string, value: string)
    ensures EntryText(key, pad, value) == (key + ":") + (pad + (value + "\n"))
  {
  }

  lemma GaleraLinesWell(st: State, safe: string)
    requires WellFormed(st) && NoSpace(safe)
    ensures Lines(Concat(GrastateLines(st, safe))) == GrastateLines(st, safe)
  {
    GrastateLinesAreLines(st, safe);
    LinesConcat(GrastateLines(st, safe));
  }

  /** With the corrected rewrite, forcing the file Galera wrote with `safe_to_bootstrap: 0` gives the one it would write with `1`. */
  lemma GaleraFileForcedCorrected(st: State)
    requires WellFormed(st)
    ensures ForcedCorrected(Concat(GrastateLines(st, "0"))) == Concat(GrastateLines(st, "1"))
  {
    GaleraFlagForcedCorrected(st);
    GaleraFlagRewrittenCorrected(st);
  }

  lemma GaleraFlagForcedCorrected(st: State)
    requires WellFormed(st)
    ensures var ls := GrastateLines(st, "0");
      SafeLine(ls[4]) && ForcedCorrected(Concat(ls)) == Concat(ls[4 := SafeLineRewriteCorrected(ls[4])])
  {
    var ls := GrastateLines(st, "0");
    GaleraLinesWell(st, "0");
    GaleraLinesBeforeFlag(st, "0");
    FlagLineRewriteCorrected("0");
    ForcedCorrectedAt(Concat(ls), ls, 4);
  }

  lemma GaleraFlagRewrittenCorrected(st: State)
    ensures var ls := GrastateLines(st, "0");
      SafeLine(ls[4]) && ls[4 := SafeLineRewriteCorrected(ls[4])] == GrastateLines(st, "1")
  {
    FlagLineRewriteCorrected("0");
    assert "1" + Spaces(0) == "1";
  }

  /** When line `i` is the first that matches, the corrected forcing rewrites that line alone. */
  lemma ForcedCorrectedAt(s: string, ls: seq<string>, i: nat)
    requires Lines(s) == ls && i < |ls| && SafeLine(ls[i])
    requires forall j :: 0 <= j < i ==> !SafeLine(ls[j])
    ensures ForcedCorrected(s) == Concat(ls[i := SafeLineRewriteCorrected(ls[i])])
  {
    RewriteFirstAt(ls, SafeSubstitutionCorrected, i);
  }

  /** When line `i` is the first that matches, forcing as written turns that line alone into `1` and spaces. */
  lemma ForcedAsWrittenAt(s: string, ls: seq<string>, i: nat)
    requires Lines(s) == ls && i < |ls| && SafeLine(ls[i])
    requires forall j :: 0 <= j < i ==> !SafeLine(ls[j])
    ensures ForcedAsWritten(s) == Concat(ls[i := SafeLineRewriteAsWritten(ls[i])])
  {
    RewriteFirstAt(ls, AsWrittenSubstitution, i);
  }

  /** With the corrected rewrite, the forced file still reads as the state Galera recorded. */
  lemma GaleraFileForcedReads(file: string, st: State)
    requires WellFormed(st)
    ensures GrastateOf(file, Some(ForcedCorrected(Concat(GrastateLines(st, "0"))))) == Ok(Some(st))
  {
    GaleraFileForcedCorrected(st);
    GrastateRoundTrip(file, st, "1");
  }

  /**
   * As written, forcing the file Galera wrote leaves a last line of `1` and
   * spaces that `read_grastate` rejects as corrupt.
   */
  lemma GaleraFileForcedAsWritten(file: string, st: State, v: string)
    requires WellFormed(st) && |v| > 0 && NoSpace(v)
    ensures GrastateOf(file, Some(ForcedAsWritten(Concat(GrastateLines(st, v))))) ==
      Err(Raised(GenericError, "Corrupt " + file + " on line 5"))
  {
    GaleraAsWrittenLines(st, v);
    GaleraAsWrittenCorrupt(st, v);
    var ls := GrastateLines(st, v);
    CorruptLineReported(file, ForcedAsWritten(Concat(ls)), 4);
    LineFive(file);
  }

  lemma LineFive(file: string)
    ensures "Corrupt " + file + " on line " + IntToString(4 + 1) == "Corrupt " + file + " on line 5"
  {
    assert IntToString(5) == "5";
    assert " on line " + "5" == " on line 5";
    Assoc("Corrupt " + file, " on line ", "5");
  }

  lemma GaleraAsWrittenLines(st: State, v: string)
    requires WellFormed(st) && |v| > 0 && NoSpace(v)
    ensures var ls := GrastateLines(st, v);
      SafeLine(ls[4]) && ForcedAsWritten(Concat(ls)) == Concat(ls[4 := SafeLineRewriteAsWritten(ls[4])])
  {
    var ls := GrastateLines(st, v);
    FlagLineMatches(v);
    GaleraLinesWell(st, v);
    GaleraLinesBeforeFlag(st, v);
    ForcedAsWrittenAt(Concat(ls), ls, 4);
  }

  lemma GaleraAsWrittenCorrupt(st: State, v: string)
    requires WellFormed(st) && |v| > 0 && NoSpace(v)
    ensures var ls := GrastateLines(st, v);
      SafeLine(ls[4]) &&
      var ms := ls[4 := SafeLineRewriteAsWritten(ls[4])];
      Lines(Concat(ms)) == ms && FirstCorrupt(ms) == Some(4)
  {
    var ls := GrastateLines(st, v);
    FlagLineMatches(v);
    var bad := SafeLineRewriteAsWritten(ls[4]);
    AsWrittenLosesKey(ls[4]);
    assert |bad| > 0 && OneLine(bad) by {
      assert forall i :: 0 <= i < |bad| ==> bad[i] != '\n';
    }
    GrastateLinesAreLines(st, v);
    LinesReplacedLast(ls, bad);
    GrastateEntries(st, v);
    FirstCorruptLast(ls, bad);
  }

  /** Replacing the last line by another line without a newline keeps the lines apart. */
  lemma LinesReplacedLast(ls: seq<string>, bad: string)
    requires |ls| > 0 && |bad| > 0 && OneLine(bad)
    requires forall i :: 0 <= i < |ls| ==> |ls[i]| > 0 && OneLine(ls[i])
    requires forall i :: 0 <= i < |ls| - 1 ==> ls[i][|ls[i]| - 1] == '\n'
    ensures Lines(Concat(ls[|ls| - 1 := bad])) == ls[|ls| - 1 := bad]
  {
    var ms := ls[|ls| - 1 := bad];
    forall i | 0 <= i < |ms|
      ensures |ms[i]| > 0 && OneLine(ms[i])
    {
      if i < |ls| - 1 {
        assert ms[i] == ls[i];
      }
    }
    forall i | 0 <= i < |ms| - 1
      ensures ms[i][|ms[i]| - 1] == '\n'
    {
      assert ms[i] == ls[i];
    }
    LinesConcat(ms);
  }

  /** A corrupt last line after good ones is the first corrupt line. */
  lemma FirstCorruptLast(ls: seq<string>, bad: string)
    requires |ls| > 0 && NoCorrupt(ls) && ClassifyLine(bad).Corrupt?
    ensures FirstCorrupt(ls[|ls| - 1 := bad]) == Some(|ls| - 1)
  {
    var ms := ls[|ls| - 1 := bad];
    var prefix := ms[..|ls| - 1];
    forall j | 0 <= j < |prefix|
      ensures !ClassifyLine(prefix[j]).Corrupt?
    {
      assert prefix[j] == ls[j];
    }
    FirstCorruptAt(ms, |ls| - 1);
  }
}
