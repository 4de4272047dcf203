/**
 * Reading Galera's state file, grastate.dat (`read_grastate` in
 * systemcloud/galera.py): `key: value` lines, blank lines and comments,
 * a later entry for a key overriding an earlier one, and the errors for a
 * corrupt line, a missing key or a malformed value.
 */
module GaleraGrastate {
  import opened Strings
  import opened Numerals
  import opened Wrappers
  import opened OcfExceptions
  import opened GaleraState

  /** A line as iterating over a file yields it: a newline can only be its last character. */
  predicate OneLine(l: string) {
    forall i :: 0 <= i < |l| - 1 ==> l[i] != '\n'
  }

  /** The lines written back to back, as `f.writelines` does. */
  function Concat(ls: seq<string>): string {
    if |ls| == 0 then "" else ls[0] + Concat(ls[1..])
  }

  /** The length of the first line of `s`: up to and including the first newline. */
  function LineLength(s: string): (r: nat)
    requires |s| > 0
    ensures 0 < r <= |s| && OneLine(s[..r])
    ensures r < |s| ==> s[r - 1] == '\n'
  {
    if s[0] == '\n' || |s| == 1 then 1
    else
      var n := LineLength(s[1..]);
      assert s[..1 + n] == [s[0]] + s[1..][..n];
      1 + n
  }

  /** `for line in f`: the file split after every newline. */
  function Lines(s: string): (r: seq<string>)
    ensures Concat(r) == s
    ensures forall i :: 0 <= i < |r| ==> |r[i]| > 0 && OneLine(r[i])
    ensures forall i :: 0 <= i < |r| - 1 ==> r[i][|r[i]| - 1] == '\n'
    decreases |s|
  {
    if |s| == 0 then []
    else
      var k := LineLength(s);
      var rest := Lines(s[k..]);
      assert s[..k] + s[k..] == s;
      [s[..k]] + rest
  }

  lemma {:induction false} LineLengthOf(l: string, rest: string)
    requires |l| > 0 && OneLine(l)
    requires l[|l| - 1] == '\n' || rest == ""
    ensures LineLength(l + rest) == |l|
  {
    var s := l + rest;
    if |l| > 1 {
      assert l[0] != '\n';
      assert s[1..] == l[1..] + rest;
      LineLengthOf(l[1..], rest);
    }
  }

  /**
   * Iterating over lines that were written back to back gives the same
   * lines: every line but the last ends with its newline, none has another.
   */
  lemma {:induction false} LinesConcat(ls: seq<string>)
    requires forall i :: 0 <= i < |ls| ==> |ls[i]| > 0 && OneLine(ls[i])
    requires forall i :: 0 <= i < |ls| - 1 ==> ls[i][|ls[i]| - 1] == '\n'
    ensures Lines(Concat(ls)) == ls
  {
    if |ls| > 0 {
      var s := Concat(ls);
      var rest := Concat(ls[1..]);
      if |ls| == 1 {
        assert rest == "";
      }
      LineLengthOf(ls[0], rest);
      assert s[..|ls[0]|] == ls[0] && s[|ls[0]|..] == rest;
      LinesConcat(ls[1..]);
    }
  }

  /** The three ways a line can be read. */
  datatype LineKind = Skip | Entry(key: string, value: string) | Corrupt

  /** `(#.*)?$` after the leading whitespace: a blank line or a comment. */
  predicate BlankOrComment(t: string) {
    |t| == 0 || (t[0] == '#' && OneLine(t[1..]))
  }

  /** `(?P<key>\w+):\s*(?P<value>.*?)\s*$` after the leading whitespace: the key and the value with the space around it removed. */
  function EntryOf(t: string): (r: Option<(string, string)>)
    ensures r.Some? ==> |r.value.0| > 0 && '\n' !in r.value.1
    ensures r.Some? ==> |r.value.0| < |t| && t[..|r.value.0|] == r.value.0 && t[|r.value.0|] == ':'
    ensures r.Some? ==> forall i :: 0 <= i < |r.value.0| ==> IsWordChar(r.value.0[i])
  {
    var k := WordLength(t);
    if 0 < k < |t| && t[k] == ':' then
      var v := Strip(t[k + 1..]);
      if '\n' in v then None else Some((t[..k], v))
    else None
  }

  /** What `read_grastate` makes of one line: both patterns start with `^\s*`. */
  function ClassifyLine(line: string): (r: LineKind)
    ensures r.Skip? <==> BlankOrComment(LStrip(line))
    ensures r.Entry? ==>
      var t := LStrip(line);
      0 < |r.key| < |t| && t[..|r.key|] == r.key && t[|r.key|] == ':' && '\n' !in r.value
  {
    var t := LStrip(line);
    if BlankOrComment(t) then Skip
    else match EntryOf(t)
      case Some((k, v)) => Entry(k, v)
      case None => Corrupt
  }

  /** Leading space followed by a non-space character is stripped exactly. */
  lemma LStripPadded(pad: string, x: string)
    requires AllSpace(pad) && |x| > 0 && !IsSpace(x[0])
    ensures LStrip(pad + x) == x
  {
    var s := pad + x;
    assert s[|pad|..] == x;
  }

  /** Trailing space after a non-space character is stripped exactly. */
  lemma RStripPadded(x: string, tail: string)
    requires AllSpace(tail) && |x| > 0 && !IsSpace(x[|x| - 1])
    ensures RStrip(x + tail) == x
  {
    var s := x + tail;
    assert s[..|x|] == x;
  }

  predicate IsKey(key: string) {
    |key| > 0 && forall i :: 0 <= i < |key| ==> IsWordChar(key[i])
  }

  /** `key:<pad>value`, one line. */
  function EntryText(key: string, pad: string, value: string): string {
    key + ":" + pad + value + "\n"
  }

  lemma EntryTextParts(key: string, pad: string, value: string)
    requires |key| > 0
    ensures var line := EntryText(key, pad, value);
      line[0] == key[0] && line[..|key|] == key && line[|key|] == ':' && line[|key| + 1..] == pad + (value + "\n")
  {
  }

  lemma WordLengthOf(key: string, rest: string)
    requires IsKey(key) && |rest| > 0 && rest[0] == ':'
    ensures WordLength(key + rest) == |key|
  {
    var s := key + rest;
    assert s[|key|] == ':';
    assert forall i :: 0 <= i < |key| ==> s[i] == key[i];
  }

  lemma StripPadded(pad: string, value: string)
    requires AllSpace(pad) && |value| > 0 && NoSpace(value)
    ensures Strip(pad + (value + "\n")) == value && '\n' !in value
  {
    LStripPadded(pad, value + "\n");
    RStripPadded(value, "\n");
    assert value[|value| - 1] in value;
    assert '\n' !in value by {
      assert forall i :: 0 <= i < |value| ==> !IsSpace(value[i]);
    }
  }

  /** A line `key:<spaces>value` is read as that entry, whatever the padding. */
  lemma EntryLine(key: string, pad: string, value: string)
    requires IsKey(key) && AllSpace(pad) && |value| > 0 && NoSpace(value)
    ensures ClassifyLine(EntryText(key, pad, value)) == Entry(key, value)
  {
    var line := EntryText(key, pad, value);
    EntryTextParts(key, pad, value);
    assert LStrip(line) == line;
    assert line == key + line[|key|..];
    WordLengthOf(key, line[|key|..]);
    StripPadded(pad, value);
  }

  /** Leading whitespace before a non-space character does not change how a line is read. */
  lemma LeadingSpaceIgnored(lead: string, x: string)
    requires AllSpace(lead) && |x| > 0 && !IsSpace(x[0])
    ensures ClassifyLine(lead + x) == ClassifyLine(x)
  {
    LStripPadded(lead, x);
    LStripPadded([], x);
    assert [] + x == x;
    assert LStrip(lead + x) == LStrip(x);
  }

  lemma StripAround(pad: string, value: string, tail: string)
    requires AllSpace(pad) && |value| > 0 && NoSpace(value) && AllSpace(tail)
    ensures Strip(pad + (value + tail)) == value && '\n' !in value
  {
    LStripPadded(pad, value + tail);
    RStripPadded(value, tail);
    assert '\n' !in value by {
      assert forall i :: 0 <= i < |value| ==> !IsSpace(value[i]);
    }
  }

  /** A key followed by a colon is an entry whose value is the rest, stripped, unless that spans lines. */
  lemma EntryOfKey(key: string, rest: string)
    requires IsKey(key)
    ensures EntryOf(key + ":" + rest) == if '\n' in Strip(rest) then None else Some((key, Strip(rest)))
  {
    var s := key + ":" + rest;
    assert s == key + s[|key|..] && s[|key|..][0] == ':';
    WordLengthOf(key, s[|key|..]);
    assert s[..|key|] == key && s[|key| + 1..] == rest;
  }

  /** Any whitespace around an entry, and after its colon, leaves the same entry. */
  lemma PaddedEntryLine(lead: string, key: string, pad: string, value: string, tail: string)
    requires AllSpace(lead) && IsKey(key) && AllSpace(pad) && |value| > 0 && NoSpace(value) && AllSpace(tail)
    ensures ClassifyLine(lead + (key + ":" + (pad + (value + tail)))) == Entry(key, value)
  {
    var x := key + ":" + (pad + (value + tail));
    assert x[0] == key[0] && IsWordChar(x[0]);
    LeadingSpaceIgnored(lead, x);
    LStripPadded([], x);
    assert [] + x == x;
    assert !BlankOrComment(x);
    EntryOfKey(key, pad + (value + tail));
    StripAround(pad, value, tail);
  }

  /** A comment line is skipped. */
  lemma CommentLine(text: string)
    requires '\n' !in text
    ensures ClassifyLine("#" + text + "\n") == Skip
  {
    var line := "#" + text + "\n";
    LStripPadded("", line);
    assert "" + line == line;
    assert line[1..] == text + "\n";
  }

  /** No line is corrupt. */
  predicate NoCorrupt(ls: seq<string>) {
    forall i :: 0 <= i < |ls| ==> !ClassifyLine(ls[i]).Corrupt?
  }

  /** The index of the first corrupt line, if any. */
  function FirstCorrupt(ls: seq<string>): (r: Option<nat>)
    ensures r.None? <==> NoCorrupt(ls)
    ensures r.Some? ==> r.value < |ls| && ClassifyLine(ls[r.value]).Corrupt? && NoCorrupt(ls[..r.value])
  {
    if |ls| == 0 then None
    else if ClassifyLine(ls[0]).Corrupt? then Some(0)
    else match FirstCorrupt(ls[1..])
      case None =>
        assert forall i :: 1 <= i < |ls| ==> ls[i] == ls[1..][i - 1];
        None
      case Some(j) =>
        NoCorruptCons(ls, j);
        Some(j + 1)
  }

  lemma NoCorruptCons(ls: seq<string>, j: nat)
    requires j < |ls| && !ClassifyLine(ls[0]).Corrupt? && NoCorrupt(ls[1..][..j])
    ensures NoCorrupt(ls[..j + 1])
  {
    var tail := ls[1..][..j];
    var head := ls[..j + 1];
    forall i | 0 < i < j + 1
      ensures !ClassifyLine(head[i]).Corrupt?
    {
      assert head[i] == tail[i - 1];
    }
  }

  /** A corrupt line after only good ones is the first corrupt line. */
  lemma {:induction false} FirstCorruptAt(ls: seq<string>, i: nat)
    requires i < |ls| && ClassifyLine(ls[i]).Corrupt? && NoCorrupt(ls[..i])
    ensures FirstCorrupt(ls) == Some(i)
  {
    if i > 0 {
      assert ls[..i][0] == ls[0];
      assert ls[1..][i - 1] == ls[i];
      var tail := ls[1..][..i - 1];
      var head := ls[..i];
      forall j | 0 <= j < i - 1
        ensures !ClassifyLine(tail[j]).Corrupt?
      {
        assert tail[j] == head[j + 1];
      }
      FirstCorruptAt(ls[1..], i - 1);
    }
  }

  /** `raw[key] = value` for an entry line; nothing for any other. */
  function Add(raw: map<string, string>, kind: LineKind): map<string, string> {
    match kind
    case Entry(k, v) => raw[k := v]
    case _ => raw
  }

  /** The `raw` dictionary after the given lines. */
  function RawEntries(ls: seq<string>): map<string, string> {
    if |ls| == 0 then map[]
    else Add(RawEntries(ls[..|ls| - 1]), ClassifyLine(ls[|ls| - 1]))
  }

  lemma RawEntriesStep(ls: seq<string>, i: nat)
    requires i < |ls|
    ensures RawEntries(ls[..i + 1]) == Add(RawEntries(ls[..i]), ClassifyLine(ls[i]))
  {
    assert ls[..i + 1][..i] == ls[..i];
  }

  lemma NoCorruptStep(ls: seq<string>, i: nat)
    requires i < |ls| && NoCorrupt(ls[..i]) && !ClassifyLine(ls[i]).Corrupt?
    ensures NoCorrupt(ls[..i + 1])
  {
    var head, before := ls[..i + 1], ls[..i];
    forall j | 0 <= j < i + 1
      ensures !ClassifyLine(head[j]).Corrupt?
    {
      if j < i {
        assert head[j] == before[j];
      }
    }
  }

  /**
   * What `read_grastate` makes of the entries: both `uuid` and `seqno`
   * must be present and form a state; every error names the file.
   */
  function FromRaw(file: string, raw: map<string, string>): (r: Result<Option<State>>)
    ensures r.Ok? <==> "uuid" in raw && "seqno" in raw && Make(raw["uuid"], raw["seqno"]).Ok?
    ensures r.Ok? ==> r.value == Some(Make(raw["uuid"], raw["seqno"]).value)
    ensures r.Err? ==> r.error.Raised? && r.error.cls == GenericError
    ensures "uuid" !in raw ==> r == Err(Raised(GenericError, "Missing UUID in " + file))
    ensures "uuid" in raw && "seqno" !in raw ==> r == Err(Raised(GenericError, "Missing sequence number in " + file))
  {
    if "uuid" !in raw then Err(Raised(GenericError, "Missing UUID in " + file))
    else if "seqno" !in raw then Err(Raised(GenericError, "Missing sequence number in " + file))
    else match Make(raw["uuid"], raw["seqno"])
      case Ok(st) => Ok(Some(st))
      case Err(e) => Err(Raised(GenericError, e.message + " in " + file))
  }

  /**
   * `read_grastate()` of a file with the given contents, None for a file
   * that does not exist: no state, a state, or a GenericError.
   */
  function GrastateOf(file: string, contents: Option<string>): (r: Result<Option<State>>)
    ensures contents.None? ==> r == Ok(None)
    ensures r.Err? ==> r.error.Raised? && r.error.cls == GenericError
    ensures r.Ok? && r.value.Some? ==> WellFormed(r.value.value)
    ensures contents.Some? ==>
      (r.Ok? <==> NoCorrupt(Lines(contents.value)) && FromRaw(file, RawEntries(Lines(contents.value))).Ok?)
  {
    if contents.None? then Ok(None)
    else
      var ls := Lines(contents.value);
      match FirstCorrupt(ls)
      case Some(i) => Err(Raised(GenericError, "Corrupt " + file + " on line " + IntToString(i + 1)))
      case None => FromRaw(file, RawEntries(ls))
  }

  /** The error names the file and the first corrupt line, counting from one. */
  lemma CorruptLineReported(file: string, s: string, i: nat)
    requires FirstCorrupt(Lines(s)) == Some(i)
    ensures GrastateOf(file, Some(s)) == Err(Raised(GenericError, "Corrupt " + file + " on line " + IntToString(i + 1)))
  {
  }

  /** Without a corrupt line, the result is what the entries give. */
  lemma CleanFileRead(file: string, s: string)
    requires FirstCorrupt(Lines(s)).None?
    ensures GrastateOf(file, Some(s)) == FromRaw(file, RawEntries(Lines(s)))
  {
  }

  /** `read_grastate`: the line loop filling `raw`, stopping at the first corrupt line. */
  method ReadGrastate(file: string, contents: Option<string>) returns (r: Result<Option<State>>)
    ensures r == GrastateOf(file, contents)
  {
    if contents.None? {
      return Ok(None);
    }
    var ls := Lines(contents.value);
    var raw: map<string, string> := map[];
    var i := 0;
    while i < |ls|
      invariant 0 <= i <= |ls|
      invariant NoCorrupt(ls[..i])
      invariant raw == RawEntries(ls[..i])
    {
      var kind := ClassifyLine(ls[i]);
      if kind.Corrupt? {
        FirstCorruptAt(ls, i);
        CorruptLineReported(file, contents.value, i);
        return Err(Raised(GenericError, "Corrupt " + file + " on line " + IntToString(i + 1)));
      }
      if kind.Entry? {
        raw := raw[kind.key := kind.value];
      }
      RawEntriesStep(ls, i);
      NoCorruptStep(ls, i);
      i := i + 1;
    }
    assert ls[..i] == ls;
    CleanFileRead(file, contents.value);
    r := FromRaw(file, raw);
  }

  /** The five lines of the state file as Galera writes it. */
  function GrastateLines(st: State, safe: string): seq<string> {
    ["# GALERA saved state\n",
     EntryText("version", " ", "2.1"),
     EntryText("uuid", "    ", st.uuid),
     EntryText("seqno", "   ", IntToString(st.seqno)),
     EntryText("safe_to_bootstrap", " ", safe)]
  }

  lemma KeyChars(key: string)
    requires key in {"version", "uuid", "seqno", "safe_to_bootstrap"}
    ensures IsKey(key)
  {
  }

  lemma UuidNoSpace(uuid: string)
    requires ValidUuid(uuid)
    ensures |uuid| > 0 && NoSpace(uuid)
  {
    ValidUuidCharacters(uuid);
  }

  lemma SeqnoNoSpace(n: int)
    ensures |IntToString(n)| > 0 && NoSpace(IntToString(n))
  {
    var d := NatToString(if n < 0 then -n else n);
    DigitsNoSpace(d);
    if n < 0 {
      SignedNoSpace(d);
    }
  }

  lemma HeaderLineSkipped()
    ensures ClassifyLine("# GALERA saved state\n") == Skip
  {
    var t := " GALERA saved state";
    assert '\n' !in t by {
      assert forall i :: 0 <= i < |t| ==> t[i] != '\n';
    }
    CommentLine(t);
    assert "#" + t + "\n" == "# GALERA saved state\n";
  }

  lemma VersionLineRead()
    ensures ClassifyLine(EntryText("version", " ", "2.1")) == Entry("version", "2.1")
  {
    KeyChars("version");
    EntryLine("version", " ", "2.1");
  }

  lemma UuidLineRead(uuid: string)
    requires ValidUuid(uuid)
    ensures ClassifyLine(EntryText("uuid", "    ", uuid)) == Entry("uuid", uuid)
  {
    KeyChars("uuid");
    UuidNoSpace(uuid);
    EntryLine("uuid", "    ", uuid);
  }

  lemma SeqnoLineRead(n: int)
    ensures ClassifyLine(EntryText("seqno", "   ", IntToString(n))) == Entry("seqno", IntToString(n))
  {
    KeyChars("seqno");
    SeqnoNoSpace(n);
    EntryLine("seqno", "   ", IntToString(n));
  }

  lemma SafeLineRead(safe: string)
    requires |safe| > 0 && NoSpace(safe)
    ensures ClassifyLine(EntryText("safe_to_bootstrap", " ", safe)) == Entry("safe_to_bootstrap", safe)
  {
    KeyChars("safe_to_bootstrap");
    EntryLine("safe_to_bootstrap", " ", safe);
  }

  lemma GrastateLinesAreLines(st: State, safe: string)
    requires WellFormed(st) && NoSpace(safe)
    ensures var ls := GrastateLines(st, safe);
      (forall i :: 0 <= i < |ls| ==> |ls[i]| > 0 && OneLine(ls[i])) &&
      (forall i :: 0 <= i < |ls| - 1 ==> ls[i][|ls[i]| - 1] == '\n')
  {
    UuidNoSpace(st.uuid);
    SeqnoNoSpace(st.seqno);
    NewlineTerminated("# GALERA saved state");
    NewlineTerminated("version" + ":" + " " + "2.1");
    NewlineTerminated("uuid" + ":" + "    " + st.uuid);
    NewlineTerminated("seqno" + ":" + "   " + IntToString(st.seqno));
    NewlineTerminated("safe_to_bootstrap" + ":" + " " + safe);
  }

  /** Text without a newline, then a newline, is one whole line. */
  lemma NewlineTerminated(x: string)
    requires forall i :: 0 <= i < |x| ==> x[i] != '\n'
    ensures var l := x + "\n"; |l| > 0 && OneLine(l) && l[|l| - 1] == '\n'
  {
  }

  /** Five lines classified as a comment and four entries. */
  lemma EntriesOfFive(l0: string, l1: string, l2: string, l3: string, l4: string,
                      k1: string, v1: string, k2: string, v2: string, k3: string, v3: string, k4: string, v4: string)
    requires ClassifyLine(l0) == Skip && ClassifyLine(l1) == Entry(k1, v1) && ClassifyLine(l2) == Entry(k2, v2)
    requires ClassifyLine(l3) == Entry(k3, v3) && ClassifyLine(l4) == Entry(k4, v4)
    ensures NoCorrupt([l0, l1, l2, l3, l4])
    ensures RawEntries([l0, l1, l2, l3, l4]) == map[k1 := v1][k2 := v2][k3 := v3][k4 := v4]
  {
    NoCorruptFive(l0, l1, l2, l3, l4);
    EntriesOfFour(l0, l1, l2, l3, k1, v1, k2, v2, k3, v3);
    LaterEntryWins([l0, l1, l2, l3], l4, k4, v4);
    assert [l0, l1, l2, l3] + [l4] == [l0, l1, l2, l3, l4];
  }

  lemma EntriesOfFour(l0: string, l1: string, l2: string, l3: string,
                      k1: string, v1: string, k2: string, v2: string, k3: string, v3: string)
    requires ClassifyLine(l0) == Skip && ClassifyLine(l1) == Entry(k1, v1) && ClassifyLine(l2) == Entry(k2, v2)
    requires ClassifyLine(l3) == Entry(k3, v3)
    ensures RawEntries([l0, l1, l2, l3]) == map[k1 := v1][k2 := v2][k3 := v3]
  {
    EntriesOfThree(l0, l1, l2, k1, v1, k2, v2);
    LaterEntryWins([l0, l1, l2], l3, k3, v3);
    assert [l0, l1, l2] + [l3] == [l0, l1, l2, l3];
  }

  lemma EntriesOfThree(l0: string, l1: string, l2: string, k1: string, v1: string, k2: string, v2: string)
    requires ClassifyLine(l0) == Skip && ClassifyLine(l1) == Entry(k1, v1) && ClassifyLine(l2) == Entry(k2, v2)
    ensures RawEntries([l0, l1, l2]) == map[k1 := v1][k2 := v2]
  {
    SkipFirst(l0);
    LaterEntryWins([l0], l1, k1, v1);
    assert [l0] + [l1] == [l0, l1];
    LaterEntryWins([l0, l1], l2, k2, v2);
    assert [l0, l1] + [l2] == [l0, l1, l2];
  }

  lemma SkipFirst(l: string)
    requires ClassifyLine(l) == Skip
    ensures RawEntries([l]) == map[]
  {
    assert [l][..0] == [];
  }

  lemma NoCorruptFive(l0: string, l1: string, l2: string, l3: string, l4: string)
    requires !ClassifyLine(l0).Corrupt? && !ClassifyLine(l1).Corrupt? && !ClassifyLine(l2).Corrupt?
    requires !ClassifyLine(l3).Corrupt? && !ClassifyLine(l4).Corrupt?
    ensures NoCorrupt([l0, l1, l2, l3, l4])
  {
  }

  lemma GrastateEntries(st: State, safe: string)
    requires WellFormed(st) && |safe| > 0 && NoSpace(safe)
    ensures var ls := GrastateLines(st, safe);
      NoCorrupt(ls) &&
      RawEntries(ls) == map["version" := "2.1"]["uuid" := st.uuid]["seqno" := IntToString(st.seqno)]["safe_to_bootstrap" := safe]
  {
    HeaderLineSkipped();
    VersionLineRead();
    UuidLineRead(st.uuid);
    SeqnoLineRead(st.seqno);
    SafeLineRead(safe);
    EntriesOfFive("# GALERA saved state\n", EntryText("version", " ", "2.1"), EntryText("uuid", "    ", st.uuid),
      EntryText("seqno", "   ", IntToString(st.seqno)), EntryText("safe_to_bootstrap", " ", safe),
      "version", "2.1", "uuid", st.uuid, "seqno", IntToString(st.seqno), "safe_to_bootstrap", safe);
  }

  lemma MakeFormatted(st: State)
    requires WellFormed(st)
    ensures Make(st.uuid, IntToString(st.seqno)) == Ok(st)
  {
    ParseIntToString(st.seqno);
  }

  /** Lines without corrupt ones whose `uuid` and `seqno` entries form a state, written out, read as that state. */
  lemma GrastateOfEntries(file: string, ls: seq<string>, st: State)
    requires forall i :: 0 <= i < |ls| ==> |ls[i]| > 0 && OneLine(ls[i])
    requires forall i :: 0 <= i < |ls| - 1 ==> ls[i][|ls[i]| - 1] == '\n'
    requires NoCorrupt(ls)
    requires var raw := RawEntries(ls);
      "uuid" in raw && "seqno" in raw && Make(raw["uuid"], raw["seqno"]) == Ok(st)
    ensures GrastateOf(file, Some(Concat(ls))) == Ok(Some(st))
  {
    LinesConcat(ls);
  }

  /** The state file Galera writes reads back as the state it records. */
  lemma GrastateRoundTrip(file: string, st: State, safe: string)
    requires WellFormed(st) && |safe| > 0 && NoSpace(safe)
    ensures GrastateOf(file, Some(Concat(GrastateLines(st, safe)))) == Ok(Some(st))
  {
    var ls := GrastateLines(st, safe);
    GrastateLinesAreLines(st, safe);
    GrastateEntries(st, safe);
    var raw := RawEntries(ls);
    assert raw["uuid"] == st.uuid && raw["seqno"] == IntToString(st.seqno);
    MakeFormatted(st);
    GrastateOfEntries(file, ls, st);
  }

  /** Blank lines and comments change nothing. */
  lemma SkippedLineIgnored(file: string, ls: seq<string>, c: string)
    requires ClassifyLine(c) == Skip
    ensures FirstCorrupt(ls + [c]) == FirstCorrupt(ls)
    ensures RawEntries(ls + [c]) == RawEntries(ls)
  {
    assert (ls + [c])[..|ls|] == ls;
    if FirstCorrupt(ls).Some? {
      var i := FirstCorrupt(ls).value;
      assert (ls + [c])[..i] == ls[..i];
      FirstCorruptAt(ls + [c], i);
    } else {
      assert NoCorrupt(ls + [c]) by {
        forall i | 0 <= i < |ls + [c]| ensures !ClassifyLine((ls + [c])[i]).Corrupt? {
          if i < |ls| {
            assert (ls + [c])[i] == ls[i];
          }
        }
      }
    }
  }

  /** A later entry for a key overrides an earlier one. */
  lemma LaterEntryWins(ls: seq<string>, line: string, k: string, v: string)
    requires ClassifyLine(line) == Entry(k, v)
    ensures RawEntries(ls + [line]) == RawEntries(ls)[k := v]
  {
    assert (ls + [line])[..|ls|] == ls;
  }
}
