/**
 * The cluster resource manager client (ocf/crm.py): the command line of
 * `crm_attribute`, the classification of its exit status, and query,
 * update and delete on top of it. The cluster information base that
 * `crm_attribute` works on is modelled as a map from attribute keys to
 * strings, with a fixed set of keys whose commands fail.
 */
module Crm {
  import opened Strings
  import opened Numerals
  import opened Wrappers
  import opened OcfExceptions
  import opened OcfTypes

  /** The exit status `crm_attribute` gives for a command line it cannot parse. */
  const USAGE_ERROR: int := 64

  /** One attribute: its name and, for a per-node attribute, its node and lifetime. */
  datatype StoreKey = StoreKey(name: string, node: Option<string>, lifetime: Option<string>)

  datatype Op = QueryOp | UpdateOp(value: string) | DeleteOp

  /** How a `crm_attribute` process ended: exit status and combined output. */
  datatype Completed = Completed(rc: int, output: string)

  function OpArgs(op: Op): seq<string> {
    match op
    case QueryOp => ["--query"]
    case UpdateOp(value) => ["--update", value]
    case DeleteOp => ["--delete"]
  }

  /** The argument vector `_crm_attribute` passes to `crm_attribute`. */
  function CommandLine(key: StoreKey, op: Op): (argv: seq<string>)
    ensures |argv| >= 5 && argv[..4] == ["crm_attribute", "--quiet", "--name", key.name]
    ensures EndsWithArgs(argv, OpArgs(op))
  {
    ["crm_attribute", "--quiet", "--name", key.name] +
      (OptionArgs("--node", key.node) + (OptionArgs("--lifetime", key.lifetime) + OpArgs(op)))
  }

  predicate EndsWithArgs(s: seq<string>, suffix: seq<string>) {
    |suffix| <= |s| && s[|s| - |suffix|..] == suffix
  }

  /** How `crm_attribute` reads its command line back: the key and the operation. */
  function ParseCommandLine(argv: seq<string>): Option<(StoreKey, Op)> {
    if |argv| < 4 || argv[..3] != ["crm_attribute", "--quiet", "--name"] then None
    else
      var node := OptionArg("--node", argv[4..]);
      var lifetime := OptionArg("--lifetime", AfterOption("--node", argv[4..]));
      match ParseOp(AfterOption("--lifetime", AfterOption("--node", argv[4..])))
      case None => None
      case Some(op) => Some((StoreKey(argv[3], node, lifetime), op))
  }

  /** The value of an optional `flag value` pair at the head of the arguments. */
  function OptionArg(flag: string, args: seq<string>): Option<string> {
    if |args| >= 2 && args[0] == flag then Some(args[1]) else None
  }

  /** The arguments after an optional `flag value` pair. */
  function AfterOption(flag: string, args: seq<string>): seq<string> {
    if |args| >= 2 && args[0] == flag then args[2..] else args
  }

  /** The arguments an optional value is written as. */
  function OptionArgs(flag: string, value: Option<string>): seq<string> {
    if value.Some? then [flag, value.value] else []
  }

  /** An optional pair written before arguments not starting with its flag reads back as written. */
  lemma OptionArgsInverse(flag: string, value: Option<string>, tail: seq<string>)
    requires |tail| > 0 && tail[0] != flag
    ensures OptionArg(flag, OptionArgs(flag, value) + tail) == value
    ensures AfterOption(flag, OptionArgs(flag, value) + tail) == tail
  {
    if value.Some? {
      assert (OptionArgs(flag, value) + tail)[2..] == tail;
    } else {
      assert OptionArgs(flag, value) + tail == tail;
    }
  }

  function ParseOp(args: seq<string>): Option<Op> {
    if args == ["--query"] then Some(QueryOp)
    else if args == ["--delete"] then Some(DeleteOp)
    else if |args| == 2 && args[0] == "--update" then Some(UpdateOp(args[1]))
    else None
  }

  lemma ParseOpArgs(op: Op)
    ensures ParseOp(OpArgs(op)) == Some(op)
  {
  }

  /** The command line names its key and operation unambiguously, whatever the strings in it. */
  lemma ParseCommandLineInverse(key: StoreKey, op: Op)
    ensures ParseCommandLine(CommandLine(key, op)) == Some((key, op))
  {
    var argv := CommandLine(key, op);
    var rest := OptionArgs("--node", key.node) + (OptionArgs("--lifetime", key.lifetime) + OpArgs(op));
    CommandLineHead(key, op);
    OptionsRead(key, op);
    assert argv[4..] == rest;
  }

  lemma CommandLineHead(key: StoreKey, op: Op)
    ensures var argv := CommandLine(key, op);
      |argv| >= 4 && argv[..3] == ["crm_attribute", "--quiet", "--name"] && argv[3] == key.name &&
      argv[4..] == OptionArgs("--node", key.node) + (OptionArgs("--lifetime", key.lifetime) + OpArgs(op))
  {
  }

  /** The optional pairs and the operation read back from the arguments after the name. */
  lemma OptionsRead(key: StoreKey, op: Op)
    ensures var rest := OptionArgs("--node", key.node) + (OptionArgs("--lifetime", key.lifetime) + OpArgs(op));
      OptionArg("--node", rest) == key.node &&
      OptionArg("--lifetime", AfterOption("--node", rest)) == key.lifetime &&
      ParseOp(AfterOption("--lifetime", AfterOption("--node", rest))) == Some(op)
  {
    var afterNode := OptionArgs("--lifetime", key.lifetime) + OpArgs(op);
    assert afterNode[0] != "--node";
    OptionArgsInverse("--node", key.node, afterNode);
    assert OpArgs(op)[0] != "--lifetime";
    OptionArgsInverse("--lifetime", key.lifetime, OpArgs(op));
    ParseOpArgs(op);
  }

  /** What `crm_attribute` prints and exits with for a command line, given the attributes it sees. */
  function Respond(attrs: map<StoreKey, string>, failures: map<StoreKey, Completed>, argv: seq<string>): (r: Completed)
    ensures ParseCommandLine(argv).None? ==> r == Completed(USAGE_ERROR, "")
    ensures ParseCommandLine(argv).Some? && ParseCommandLine(argv).value.0 in failures ==>
      r == failures[ParseCommandLine(argv).value.0]
    ensures ParseCommandLine(argv).Some? && ParseCommandLine(argv).value.0 !in failures ==>
      var (key, op) := ParseCommandLine(argv).value;
      (r.rc == SUCCESS <==> !op.QueryOp? || key in attrs) &&
      (r.rc != SUCCESS ==> r == Completed(ERR_CONFIGURED, "")) &&
      (op.QueryOp? && key in attrs ==> r.output == attrs[key] + "\n")
  {
    match ParseCommandLine(argv)
    case None => Completed(USAGE_ERROR, "")
    case Some((key, op)) =>
      if key in failures then failures[key]
      else match op
        case QueryOp => if key in attrs then Completed(SUCCESS, attrs[key] + "\n") else Completed(ERR_CONFIGURED, "")
        case UpdateOp(_) => Completed(SUCCESS, "")
        case DeleteOp => Completed(SUCCESS, "")
  }

  /** The attributes after `crm_attribute` has run a command line. */
  function Effect(attrs: map<StoreKey, string>, failures: map<StoreKey, Completed>, argv: seq<string>): map<StoreKey, string> {
    match ParseCommandLine(argv)
    case None => attrs
    case Some((key, op)) =>
      if key in failures then attrs
      else match op
        case QueryOp => attrs
        case UpdateOp(value) => attrs[key := value]
        case DeleteOp => attrs - {key}
  }

  /** The cluster information base as `crm_attribute` sees it. */
  class Cib {
    var attrs: map<StoreKey, string>
    const failures: map<StoreKey, Completed>

    predicate Valid()
      reads this
    {
      forall k :: k in failures ==> failures[k].rc != SUCCESS
    }

    constructor(attrs: map<StoreKey, string>, failures: map<StoreKey, Completed>)
      requires forall k :: k in failures ==> failures[k].rc != SUCCESS
      ensures Valid() && this.attrs == attrs && this.failures == failures
    {
      this.attrs := attrs;
      this.failures := failures;
    }

    /** Run `crm_attribute` with the given arguments. */
    method Run(argv: seq<string>) returns (c: Completed)
      modifies this
      ensures c == Respond(old(attrs), failures, argv)
      ensures attrs == Effect(old(attrs), failures, argv)
    {
      c := Respond(attrs, failures, argv);
      attrs := Effect(attrs, failures, argv);
    }
  }

  /** The text of the GenericError for a failed command: its output, or its exit status when there is none. */
  function FailureText(c: Completed): string {
    if c.output != "" then c.output else IntToString(c.rc)
  }

  /**
   * The return-code classification of `_crm_attribute`: output without
   * trailing newlines on success, None for ERR_CONFIGURED, and otherwise
   * GenericError carrying the output, or the exit status when there is none.
   */
  function Classify(c: Completed): (r: Result<Option<string>>)
    ensures r.Ok? <==> c.rc == SUCCESS || c.rc == ERR_CONFIGURED
    ensures r.Ok? && r.value.None? <==> c.rc == ERR_CONFIGURED
    ensures r.Err? ==> r.error == Raised(GenericError, FailureText(c))
  {
    if c.rc == SUCCESS then Ok(Some(RStripNewlines(c.output)))
    else if c.rc == ERR_CONFIGURED then Ok(None)
    else Err(Raised(GenericError, FailureText(c)))
  }

  /** `_crm_attribute(name, node, lifetime, *args)`. */
  method CrmAttribute(cib: Cib, key: StoreKey, op: Op) returns (r: Result<Option<string>>)
    modifies cib
    ensures r == Classify(Respond(old(cib.attrs), cib.failures, CommandLine(key, op)))
    ensures cib.attrs == Effect(old(cib.attrs), cib.failures, CommandLine(key, op))
  {
    var command := CommandLine(key, op);
    var completed := cib.Run(command);
    r := Classify(completed);
  }

  /** What `query` returns: the default when absent, else the value decoded as type `t`. */
  function QueryResult(attrs: map<StoreKey, string>, failures: map<StoreKey, Completed>, key: StoreKey,
                       t: OcfType, default: Option<Value>): (r: Result<Option<Value>>)
    ensures r.Ok? && r != Ok(default) ==> r.value.Some? && TypeOf(r.value.value) == t
  {
    match Classify(Respond(attrs, failures, CommandLine(key, QueryOp)))
    case Err(e) => Err(e)
    case Ok(None) => Ok(default)
    case Ok(Some(text)) =>
      match FromOcf(text, t)
      case Err(e) => Err(e)
      case Ok(v) => FromOcfType(text, t); Ok(Some(v))
  }

  /** `crm.query(name, type, default, node, lifetime)`: reads and changes nothing. */
  method Query(cib: Cib, key: StoreKey, t: OcfType, default: Option<Value>) returns (r: Result<Option<Value>>)
    modifies cib
    ensures r == QueryResult(old(cib.attrs), cib.failures, key, t, default)
    ensures cib.attrs == old(cib.attrs)
  {
    ParseCommandLineInverse(key, QueryOp);
    var text := CrmAttribute(cib, key, QueryOp);
    match text
    case Err(e) =>
      r := Err(e);
    case Ok(None) =>
      r := Ok(default);
    case Ok(Some(s)) =>
      var v := FromOcf(s, t);
      r := if v.Ok? then Ok(Some(v.value)) else Err(v.error);
  }

  /** The store after an update or a delete of `key`, whether or not it failed. */
  function UpdateEffect(attrs: map<StoreKey, string>, failures: map<StoreKey, Completed>, key: StoreKey, v: Value)
    : map<StoreKey, string>
  {
    Effect(attrs, failures, CommandLine(key, UpdateOp(ToOcf(v))))
  }

  function DeleteEffect(attrs: map<StoreKey, string>, failures: map<StoreKey, Completed>, key: StoreKey)
    : map<StoreKey, string>
  {
    Effect(attrs, failures, CommandLine(key, DeleteOp))
  }

  /** An update or delete raises exactly when the key's commands fail other than with ERR_CONFIGURED. */
  function WriteOutcome(failures: map<StoreKey, Completed>, key: StoreKey): (r: Result<()>)
    ensures r.Err? <==> key in failures && failures[key].rc != SUCCESS && failures[key].rc != ERR_CONFIGURED
  {
    if key in failures && failures[key].rc != SUCCESS && failures[key].rc != ERR_CONFIGURED then
      Err(Raised(GenericError, FailureText(failures[key])))
    else Ok(())
  }

  /** `crm.update(name, value, node, lifetime)`: sends `--update to_ocf(value)`. */
  method Update(cib: Cib, key: StoreKey, v: Value) returns (r: Result<()>)
    requires cib.Valid()
    modifies cib
    ensures r == WriteOutcome(cib.failures, key)
    ensures cib.attrs == UpdateEffect(old(cib.attrs), cib.failures, key, v)
  {
    ParseCommandLineInverse(key, UpdateOp(ToOcf(v)));
    var out := CrmAttribute(cib, key, UpdateOp(ToOcf(v)));
    r := if out.Ok? then Ok(()) else Err(out.error);
  }

  /** `crm.delete(name, node, lifetime)`: sends `--delete`. */
  method Delete(cib: Cib, key: StoreKey) returns (r: Result<()>)
    requires cib.Valid()
    modifies cib
    ensures r == WriteOutcome(cib.failures, key)
    ensures cib.attrs == DeleteEffect(old(cib.attrs), cib.failures, key)
  {
    ParseCommandLineInverse(key, DeleteOp);
    var out := CrmAttribute(cib, key, DeleteOp);
    r := if out.Ok? then Ok(()) else Err(out.error);
  }

  /** A missing attribute reads as the default; ERR_CONFIGURED is "absent", not an error. */
  lemma QueryAbsent(attrs: map<StoreKey, string>, failures: map<StoreKey, Completed>, key: StoreKey,
                    t: OcfType, default: Option<Value>)
    requires key !in failures && key !in attrs
    ensures QueryResult(attrs, failures, key, t, default) == Ok(default)
  {
    ParseCommandLineInverse(key, QueryOp);
  }

  /** A failing key reads as the default for ERR_CONFIGURED and raises GenericError otherwise. */
  lemma QueryFailing(attrs: map<StoreKey, string>, failures: map<StoreKey, Completed>, key: StoreKey,
                     t: OcfType, default: Option<Value>)
    requires key in failures && failures[key].rc != SUCCESS
    ensures failures[key].rc == ERR_CONFIGURED ==> QueryResult(attrs, failures, key, t, default) == Ok(default)
    ensures failures[key].rc != ERR_CONFIGURED ==>
      QueryResult(attrs, failures, key, t, default) == Err(Raised(GenericError, FailureText(failures[key])))
  {
    ParseCommandLineInverse(key, QueryOp);
  }

  /** A value that comes back from the store as written: storable, and not ending in a newline. */
  predicate RoundTrips(v: Value) {
    Storable(v) && (|ToOcf(v)| == 0 || ToOcf(v)[|ToOcf(v)| - 1] != '\n')
  }

  /** Read-your-writes at the store: after a successful update, a query of the same type returns the value. */
  lemma UpdateThenQuery(attrs: map<StoreKey, string>, failures: map<StoreKey, Completed>, key: StoreKey,
                        v: Value, default: Option<Value>)
    requires key !in failures && RoundTrips(v)
    ensures QueryResult(UpdateEffect(attrs, failures, key, v), failures, key, TypeOf(v), default) == Ok(Some(v))
  {
    ParseCommandLineInverse(key, UpdateOp(ToOcf(v)));
    ParseCommandLineInverse(key, QueryOp);
    RStripNewlinesOne(ToOcf(v));
    FromOcfToOcf(v);
  }

  /** After a successful delete a query returns the default. */
  lemma DeleteThenQuery(attrs: map<StoreKey, string>, failures: map<StoreKey, Completed>, key: StoreKey,
                        t: OcfType, default: Option<Value>)
    requires key !in failures
    ensures QueryResult(DeleteEffect(attrs, failures, key), failures, key, t, default) == Ok(default)
  {
    ParseCommandLineInverse(key, DeleteOp);
    QueryAbsent(DeleteEffect(attrs, failures, key), failures, key, t, default);
  }

  /** An update or delete changes its own key only. */
  lemma WritesAreLocal(attrs: map<StoreKey, string>, failures: map<StoreKey, Completed>, key: StoreKey,
                       other: StoreKey, v: Value)
    requires other != key
    ensures other in UpdateEffect(attrs, failures, key, v) <==> other in attrs
    ensures other in attrs ==> UpdateEffect(attrs, failures, key, v)[other] == attrs[other]
    ensures other in DeleteEffect(attrs, failures, key) <==> other in attrs
    ensures other in attrs ==> DeleteEffect(attrs, failures, key)[other] == attrs[other]
  {
    ParseCommandLineInverse(key, UpdateOp(ToOcf(v)));
    ParseCommandLineInverse(key, DeleteOp);
  }

  /** A failing command leaves the store as it was. */
  lemma FailedWritesChangeNothing(attrs: map<StoreKey, string>, failures: map<StoreKey, Completed>, key: StoreKey,
                                  v: Value)
    requires key in failures
    ensures UpdateEffect(attrs, failures, key, v) == attrs && DeleteEffect(attrs, failures, key) == attrs
  {
    ParseCommandLineInverse(key, UpdateOp(ToOcf(v)));
    ParseCommandLineInverse(key, DeleteOp);
  }

  lemma RStripNewlinesOne(s: string)
    requires |s| == 0 || s[|s| - 1] != '\n'
    ensures RStripNewlines(s + "\n") == s
  {
    assert (s + "\n")[..|s|] == s;
  }
}
