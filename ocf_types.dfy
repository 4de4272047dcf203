/**
 * Conversion between OCF string variables (environment variables and
 * cluster attributes) and typed values (ocf/types.py). The declared type
 * of a parameter or attribute is one of the Python types the agents use:
 * bool, list, str, int and GaleraState.
 */
module OcfTypes {
  import opened Strings
  import opened Numerals
  import opened OcfExceptions
  import GaleraState

  datatype OcfType = BoolType | ListType | StrType | IntType | StateType

  datatype Value =
    | BoolValue(b: bool)
    | ListValue(items: seq<string>)
    | StrValue(s: string)
    | IntValue(n: int)
    | StateValue(st: GaleraState.State)

  function TypeOf(v: Value): OcfType {
    if v.BoolValue? then BoolType
    else if v.ListValue? then ListType
    else if v.StrValue? then StrType
    else if v.IntValue? then IntType
    else StateType
  }

  /** The spellings read as true, compared after lower-casing. */
  const TRUE_WORDS: seq<string> := ["yes", "true", "on", "1", "ja"]

  /** A boolean variable is true exactly when it is one of TRUE_WORDS in any case. */
  function ReadBool(value: string): bool {
    Lower(value) in TRUE_WORDS
  }

  /** The longest text `PyInt_FromString` quotes in its error message. */
  const REPR_LIMIT: nat := 200

  /** The fixed start of that message. */
  const INT_ERROR_PREFIX: string := "invalid literal for int() with base 10: "

  /**
   * The message of the ValueError `int(value)` raises: the `repr` of at most
   * REPR_LIMIT bytes of the value, counted after its leading whitespace.
   */
  function IntError(value: string): (m: string)
    ensures '\n' !in m
  {
    var t := LStrip(value);
    var quoted := PyRepr(if |t| <= REPR_LIMIT then t else t[..REPR_LIMIT]);
    IntErrorPrefixOneLine();
    INT_ERROR_PREFIX + quoted
  }

  lemma IntErrorPrefixOneLine()
    ensures '\n' !in INT_ERROR_PREFIX
  {
    assert forall i :: 0 <= i < |INT_ERROR_PREFIX| ==> INT_ERROR_PREFIX[i] != '\n';
  }

  /** The reason an unreadable integer exits with is the message itself, on one line. */
  lemma IntErrorReason(value: string)
    ensures ReasonLine(IntError(value)) == "ocf-exit-reason:" + IntError(value) + "\n"
  {
    ReasonLineOfOneLine(IntError(value));
  }

  /** Leading whitespace is not part of the message. */
  lemma IntErrorSkipsSpace(sp: string, value: string)
    requires AllSpace(sp)
    ensures IntError(sp + value) == IntError(value)
  {
    LStripSpaces(sp, value);
  }

  /** A short value of plain printable bytes is quoted verbatim between single quotes. */
  lemma IntErrorPlain(value: string)
    requires |value| <= REPR_LIMIT && (|value| > 0 ==> !IsSpace(value[0]))
    requires forall i :: 0 <= i < |value| ==> Printable(value[i]) && value[i] != '\'' && value[i] != '"' && value[i] != '\\'
    ensures IntError(value) == INT_ERROR_PREFIX + "'" + value + "'"
  {
    assert LeadingSpace(value) == 0;
    ReprPlain(value);
  }

  /** `from_ocf(value, type)`: only int and GaleraState can raise ValueError. */
  function FromOcf(value: string, t: OcfType): (r: Result<Value>)
    ensures r.Err? <==> (t == IntType && ParseInt(value).None?) || (t == StateType && GaleraState.Parse(value).Err?)
    ensures r.Ok? && t == StateType ==> r.value.StateValue? && GaleraState.WellFormed(r.value.st)
  {
    match t
    case IntType => IntFromOcf(value)
    case StateType => StateFromOcf(value)
    case _ => Ok(PlainFromOcf(value, t))
  }

  /** A conversion that succeeds gives a value of the requested type. */
  lemma FromOcfType(value: string, t: OcfType)
    requires FromOcf(value, t).Ok?
    ensures TypeOf(FromOcf(value, t).value) == t
  {
    match t
    case IntType =>
      var r := IntFromOcf(value);
      assert FromOcf(value, t) == r;
      assert r.value.IntValue?;
    case StateType =>
      var r := StateFromOcf(value);
      assert FromOcf(value, t) == r;
      assert r.value.StateValue?;
    case _ =>
      assert FromOcf(value, t) == Ok(PlainFromOcf(value, t));
  }

  /** The conversions that cannot fail: bool, list and str. */
  function PlainFromOcf(value: string, t: OcfType): (v: Value)
    requires t != IntType && t != StateType
    ensures TypeOf(v) == t
  {
    match t
    case BoolType => BoolValue(ReadBool(value))
    case ListType => ListValue(Words(value))
    case StrType => StrValue(value)
  }

  /** `int(value)`, raising ValueError for anything but an optionally signed decimal. */
  function IntFromOcf(value: string): (r: Result<Value>)
    ensures r.Ok? ==> r.value.IntValue?
    ensures r.Err? <==> ParseInt(value).None?
  {
    match ParseInt(value)
    case Some(n) => Ok(IntValue(n))
    case None => Err(Exception(IntError(value)))
  }

  /** `GaleraState(value)`, raising ValueError for a malformed state. */
  function StateFromOcf(value: string): (r: Result<Value>)
    ensures r.Ok? ==> r.value.StateValue? && GaleraState.WellFormed(r.value.st)
    ensures r.Err? <==> GaleraState.Parse(value).Err?
  {
    var parsed := GaleraState.Parse(value);
    if parsed.Ok? then Ok(StateValue(parsed.value)) else Err(parsed.error)
  }

  /** `to_ocf(value)`: booleans as 1 or 0, lists joined by spaces, anything else by `str`. */
  function ToOcf(v: Value): string {
    match v
    case BoolValue(b) => if b then "1" else "0"
    case ListValue(items) => Join(" ", items)
    case StrValue(s) => s
    case IntValue(n) => IntToString(n)
    case StateValue(st) => GaleraState.Format(st)
  }

  /** The values that survive being written out: list items are words, states are well formed. */
  predicate Storable(v: Value) {
    match v
    case ListValue(items) => forall i :: 0 <= i < |items| ==> |items[i]| > 0 && NoSpace(items[i])
    case StateValue(st) => GaleraState.WellFormed(st)
    case _ => true
  }

  /** Writing a storable value and reading it back as its own type gives it back. */
  lemma FromOcfToOcf(v: Value)
    requires Storable(v)
    ensures FromOcf(ToOcf(v), TypeOf(v)) == Ok(v)
  {
    match v
    case BoolValue(b) =>
      if b {
        assert Lower("1") == "1";
      } else {
        assert Lower("0") == "0";
        assert !ReadBool("0");
      }
    case ListValue(items) => WordsJoin(items);
    case StrValue(_) =>
    case IntValue(n) => ParseIntToString(n);
    case StateValue(st) => GaleraState.ParseFormat(st);
  }

  /** Every value read from a variable is storable. */
  lemma FromOcfStorable(value: string, t: OcfType)
    requires FromOcf(value, t).Ok?
    ensures Storable(FromOcf(value, t).value)
  {
    if t == ListType {
      WordsAreWords(value);
    }
  }

  /** Reading is a normalisation: reading what was read and written back changes nothing. */
  lemma FromOcfNormalises(value: string, t: OcfType)
    requires FromOcf(value, t).Ok?
    ensures FromOcf(ToOcf(FromOcf(value, t).value), t) == FromOcf(value, t)
  {
    FromOcfStorable(value, t);
    FromOcfType(value, t);
    FromOcfToOcf(FromOcf(value, t).value);
  }
}
