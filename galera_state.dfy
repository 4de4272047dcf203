/**
 * The Galera database state: the cluster UUID and the sequence number of
 * the last committed transaction, written as `uuid:seqno` in the
 * grastate file and in the per-node state attribute.
 */
module GaleraState {
  import opened Strings
  import opened Numerals
  import opened OcfExceptions
  import opened Wrappers

  /** `str(UUID(int=0))`: the UUID of a node that has never joined a cluster. */
  const ZERO_UUID: string := ZEROS_8 + "-" + ZEROS_4 + "-" + ZEROS_4 + "-" + ZEROS_4 + "-" + ZEROS_12

  const ZEROS_4: string := "0000"
  const ZEROS_8: string := ZEROS_4 + ZEROS_4
  const ZEROS_12: string := ZEROS_8 + ZEROS_4

  /** The `wsrep_local_state` value of a node that is in sync with its cluster. */
  const WSREP_STATE_SYNCED: int := 4

  /** The unknown sequence number -1 as Galera sometimes writes it: unsigned, 64 bits wide. */
  const UNSIGNED_MINUS_ONE: int := 0x1_0000_0000_0000_0000 - 1

  datatype State = State(uuid: string, seqno: int)

  predicate IsHex(c: char) {
    IsDigit(c) || 'a' <= c <= 'f' || 'A' <= c <= 'F'
  }

  predicate IsBrace(c: char) {
    c == '{' || c == '}'
  }

  /** `s.strip('{}')`: every brace removed from both ends. */
  function StripBraces(s: string): (r: string)
    ensures |r| <= |s|
    ensures |r| > 0 ==> !IsBrace(r[0]) && !IsBrace(r[|r| - 1])
    decreases |s|
  {
    if |s| > 0 && IsBrace(s[0]) then StripBraces(s[1..])
    else if |s| > 0 && IsBrace(s[|s| - 1]) then StripBraces(s[..|s| - 1])
    else s
  }

  /** `s.replace('-', '')`. */
  function RemoveHyphens(s: string): (r: string)
    ensures '-' !in r
    ensures |r| <= |s|
  {
    if |s| == 0 then ""
    else if s[0] == '-' then RemoveHyphens(s[1..])
    else [s[0]] + RemoveHyphens(s[1..])
  }

  /** Stripping braces keeps every character that is not a brace. */
  lemma {:induction false} StripBracesKeeps(s: string, i: nat)
    requires i < |s| && !IsBrace(s[i])
    ensures s[i] in StripBraces(s)
    decreases |s|
  {
    if IsBrace(s[0]) {
      assert s[i] == s[1..][i - 1];
      StripBracesKeeps(s[1..], i - 1);
    } else if IsBrace(s[|s| - 1]) {
      assert s[i] == s[..|s| - 1][i];
      StripBracesKeeps(s[..|s| - 1], i);
    }
  }

  /** Removing hyphens keeps every character that is not a hyphen. */
  lemma {:induction false} RemoveHyphensKeeps(s: string, i: nat)
    requires i < |s| && s[i] != '-'
    ensures s[i] in RemoveHyphens(s)
  {
    if i > 0 {
      assert s[i] == s[1..][i - 1];
      RemoveHyphensKeeps(s[1..], i - 1);
    }
  }

  /**
   * What `UUID(s)` accepts in its canonical forms: with braces and hyphens
   * removed, exactly 32 hexadecimal digits.
   */
  predicate ValidUuid(s: string) {
    var h := RemoveHyphens(StripBraces(s));
    |h| == 32 && forall i :: 0 <= i < |h| ==> IsHex(h[i])
  }

  /** Every character of a valid UUID is a hex digit, a hyphen or a brace. */
  lemma ValidUuidCharacters(s: string)
    requires ValidUuid(s)
    ensures forall i :: 0 <= i < |s| ==> IsHex(s[i]) || s[i] == '-' || IsBrace(s[i])
  {
    var b := StripBraces(s);
    var h := RemoveHyphens(b);
    forall i | 0 <= i < |s| ensures IsHex(s[i]) || s[i] == '-' || IsBrace(s[i]) {
      if !IsBrace(s[i]) && s[i] != '-' {
        StripBracesKeeps(s, i);
        var j :| 0 <= j < |b| && b[j] == s[i];
        RemoveHyphensKeeps(b, j);
      }
    }
  }

  predicate AllHex(s: string) {
    forall i :: 0 <= i < |s| ==> IsHex(s[i])
  }

  lemma StripBracesKept(s: string)
    requires |s| > 0 && !IsBrace(s[0]) && !IsBrace(s[|s| - 1])
    ensures StripBraces(s) == s
  {
  }

  lemma AllHexAppend(x: string, y: string)
    requires AllHex(x) && AllHex(y)
    ensures AllHex(x + y)
  {
    assert forall i :: |x| <= i < |x + y| ==> (x + y)[i] == y[i - |x|];
  }

  lemma CanonicalHyphens(a: string, b: string, c: string, d: string, e: string)
    requires AllHex(a) && AllHex(b) && AllHex(c) && AllHex(d) && AllHex(e)
    ensures RemoveHyphens(a + "-" + b + "-" + c + "-" + d + "-" + e) == a + b + c + d + e
  {
    HexKept(a);
    HyphenThenHex(a, b);
    HyphenThenHex(a + "-" + b, c);
    HyphenThenHex(a + "-" + b + "-" + c, d);
    HyphenThenHex(a + "-" + b + "-" + c + "-" + d, e);
  }

  /** The canonical 8-4-4-4-12 spelling of a UUID is accepted. */
  lemma CanonicalUuidValid(a: string, b: string, c: string, d: string, e: string)
    requires AllHex(a) && AllHex(b) && AllHex(c) && AllHex(d) && AllHex(e)
    requires |a| == 8 && |b| == 4 && |c| == 4 && |d| == 4 && |e| == 12
    ensures ValidUuid(a + "-" + b + "-" + c + "-" + d + "-" + e)
  {
    var s := a + "-" + b + "-" + c + "-" + d + "-" + e;
    assert s[0] == a[0] && s[|s| - 1] == e[11];
    StripBracesKept(s);
    CanonicalHyphens(a, b, c, d, e);
    AllHexAppend(a, b);
    AllHexAppend(a + b, c);
    AllHexAppend(a + b + c, d);
    AllHexAppend(a + b + c + d, e);
  }

  lemma HyphenThenHex(x: string, y: string)
    requires AllHex(y)
    ensures RemoveHyphens(x + "-" + y) == RemoveHyphens(x) + y
  {
    RemoveHyphensAppend(x, "-" + y);
    assert x + "-" + y == x + ("-" + y);
    assert ("-" + y)[1..] == y;
    HexKept(y);
  }

  lemma {:induction false} HexKept(s: string)
    requires AllHex(s)
    ensures RemoveHyphens(s) == s
  {
    if |s| > 0 {
      HexKept(s[1..]);
      assert [s[0]] + s[1..] == s;
    }
  }

  lemma {:induction false} RemoveHyphensAppend(x: string, y: string)
    ensures RemoveHyphens(x + y) == RemoveHyphens(x) + RemoveHyphens(y)
  {
    if |x| > 0 {
      assert (x + y)[1..] == x[1..] + y;
      RemoveHyphensAppend(x[1..], y);
    } else {
      assert x + y == y;
    }
  }

  lemma ZeroUuidValid()
    ensures ValidUuid(ZERO_UUID)
  {
    assert AllHex(ZEROS_4);
    AllHexAppend(ZEROS_4, ZEROS_4);
    AllHexAppend(ZEROS_8, ZEROS_4);
    CanonicalUuidValid(ZEROS_8, ZEROS_4, ZEROS_4, ZEROS_4, ZEROS_12);
  }

  /** The value Galera's 64-bit unsigned -1 is read back as. */
  function Normalise(n: int): (r: int)
    ensures r != UNSIGNED_MINUS_ONE
    ensures n != UNSIGNED_MINUS_ONE ==> r == n
  {
    if n == UNSIGNED_MINUS_ONE then -1 else n
  }

  /** A state as the constructor leaves it. */
  predicate WellFormed(st: State) {
    ValidUuid(st.uuid) && st.seqno != UNSIGNED_MINUS_ONE
  }

  /** `GaleraState(uuid=uuid, seqno=seqno)`: ValueError for a bad UUID or sequence number. */
  function Make(uuid: string, seqno: string): (r: Result<State>)
    ensures r.Ok? <==> ValidUuid(uuid) && ParseInt(seqno).Some?
    ensures r.Ok? ==>
      WellFormed(r.value) && r.value.uuid == uuid && r.value.seqno == Normalise(ParseInt(seqno).value)
    ensures r.Err? ==> r.error.Exception?
  {
    if !ValidUuid(uuid) then Err(Exception("Malformed UUID " + uuid))
    else match ParseInt(seqno)
      case None => Err(Exception("Malformed sequence number " + seqno))
      case Some(n) => Ok(State(uuid, Normalise(n)))
  }

  /** `GaleraState(string)`: exactly one ':' between the UUID and the sequence number. */
  function Parse(s: string): (r: Result<State>)
    ensures r.Ok? ==> WellFormed(r.value)
  {
    var parts := SplitOn(s, ':');
    if |parts| != 2 then Err(Exception("Malformed state " + s))
    else Make(parts[0], parts[1])
  }

  /**
   * A state parses only from text with exactly one colon: it is made from
   * the UUID before the colon and the sequence number after it.
   */
  lemma ParseOneColon(s: string)
    requires Parse(s).Ok?
    ensures exists i :: 0 <= i < |s| && s[i] == ':' && ':' !in s[..i] && ':' !in s[i + 1..] &&
                        Parse(s) == Make(s[..i], s[i + 1..])
  {
    var parts := SplitOn(s, ':');
    JoinSplitOn(s, ':');
    assert s == parts[0] + [':'] + parts[1];
    assert Parse(s) == Make(parts[0], parts[1]);
    ColonAt(s, parts[0], parts[1]);
  }

  lemma ColonAt(s: string, a: string, b: string)
    requires s == a + [':'] + b
    ensures s[|a|] == ':' && s[..|a|] == a && s[|a| + 1..] == b
  {
  }

  /** `str(state)`: `'%s:%d' % (uuid, seqno)`. */
  function Format(st: State): string {
    st.uuid + ":" + IntToString(st.seqno)
  }

  /** `bool(state)`: false only for the unknown sequence number -1. */
  predicate Truthy(st: State) {
    st.seqno != -1
  }

  /** Text with one colon is read as the UUID before it and the sequence number after it. */
  lemma ParseParts(uuid: string, seqno: string)
    requires ':' !in uuid && ':' !in seqno
    ensures Parse(uuid + ":" + seqno) == Make(uuid, seqno)
  {
    var s := uuid + ":" + seqno;
    assert s == uuid + [':'] + seqno;
    SplitOnAppend(uuid, ':', seqno);
    SplitOnNoSeparator(seqno, ':');
    assert SplitOn(s, ':') == [uuid, seqno];
  }

  lemma ValidUuidNoColon(uuid: string)
    requires ValidUuid(uuid)
    ensures ':' !in uuid
  {
    ValidUuidCharacters(uuid);
  }

  /** A state written out and read back is the same state. */
  lemma ParseFormat(st: State)
    requires WellFormed(st)
    ensures Parse(Format(st)) == Ok(st)
  {
    ValidUuidNoColon(st.uuid);
    IntToStringNoColon(st.seqno);
    ParseParts(st.uuid, IntToString(st.seqno));
    ParseIntToString(st.seqno);
  }

  /** Galera's unsigned spelling of -1 reads back as the unknown (false) state. */
  lemma ParseUnsignedMinusOne(uuid: string, digits: string)
    requires ValidUuid(uuid) && ':' !in digits && ParseInt(digits) == Some(UNSIGNED_MINUS_ONE)
    ensures Parse(uuid + ":" + digits) == Ok(State(uuid, -1))
    ensures !Truthy(State(uuid, -1))
  {
    ValidUuidNoColon(uuid);
    ParseParts(uuid, digits);
  }

  /** Reading is idempotent: a parsed state formats to text that parses to itself. */
  lemma ParseIdempotent(s: string)
    requires Parse(s).Ok?
    ensures Parse(Format(Parse(s).value)) == Parse(s)
  {
    ParseFormat(Parse(s).value);
  }

  lemma IntToStringNoColon(n: int)
    ensures ':' !in IntToString(n)
  {
    var d := NatToString(if n < 0 then -n else n);
    assert forall i :: 0 <= i < |d| ==> IsDigit(d[i]);
    if n < 0 {
      assert IntToString(n) == "-" + d;
      assert forall i :: 1 <= i < |"-" + d| ==> ("-" + d)[i] == d[i - 1];
    }
  }
}
