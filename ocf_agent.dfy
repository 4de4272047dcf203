/**
 * The OCF resource agent object (ocf/agent.py): its identity (name,
 * environment, node), its per-object parameter and attribute caches,
 * peer agents for other nodes, the master score it promotes and demotes
 * through, the default actions, and the table that dispatches a command
 * line to an action and turns the outcome into an exit.
 */
module OcfAgent {
  import opened Wrappers
  import opened Strings
  import opened Numerals
  import opened OcfExceptions
  import opened OcfTypes
  import opened Crm
  import opened OcfEnviron
  import opened OcfParameter
  import opened OcfAttribute

  /** `score`: the per-node master score, named `master-<instance>` with the default lifetime. */
  const SCORE: Attribute := NodeNameInstanceAttribute("master", IntType, None, DEFAULT_LIFETIME)

  /** The score `trigger_promote` writes unless it is given one. */
  const DEFAULT_SCORE: int := 100

  /** The environment a peer agent is created with: the instance variable and nothing else. */
  function PeerEnviron(environ: Environ): (e: Environ)
    ensures e.Keys <= {INSTANCE_VARIABLE}
    ensures Instance(e) == Instance(environ)
  {
    if INSTANCE_VARIABLE in environ then map[INSTANCE_VARIABLE := environ[INSTANCE_VARIABLE]] else map[]
  }

  /** A peer agent sees no resource parameter, so every parameter it reads has its default. */
  lemma PeerParamsDefault(environ: Environ, name: string, t: OcfType, default: Option<Value>)
    ensures Param(PeerEnviron(environ), name, t, default) == Ok(default)
  {
    var variable := "OCF_RESKEY_" + name;
    assert variable[7] != INSTANCE_VARIABLE[7];
    assert variable !in PeerEnviron(environ);
  }

  /** The key of the score of the agent on `node`: `master-<instance>` on that node, lifetime forever. */
  lemma ScoreKey(node: Option<string>, instance: Option<string>)
    ensures Key(SCORE, node, instance) == StoreKey("master-" + PyStr(instance), node, Some("forever"))
  {
    assert AttributeName(SCORE, instance) == "master" + "-" + PyStr(instance);
  }

  /** The agents of two nodes keep their scores under different keys. */
  lemma ScoresPerNode(n1: Option<string>, n2: Option<string>, instance: Option<string>)
    requires n1 != n2
    ensures Key(SCORE, n1, instance) != Key(SCORE, n2, instance)
  {
    ScoreKey(n1, instance);
    ScoreKey(n2, instance);
  }

  /** An OCF resource agent object. */
  class Agent {
    const name: string
    const environ: Environ
    const node: Option<string>
    const parameters: ParameterCache
    const attributes: AttributeCache
    /** The cluster information base every agent's `crm_attribute` commands reach. */
    const cib: Cib

    /** `ResourceAgent(name, environ, node)`: the node defaults to the meta parameter `on_node`. */
    constructor(name: string, environ: Environ, node: Option<string>, cib: Cib)
      ensures this.name == name && this.environ == environ && this.cib == cib
      ensures this.node == (if node.Some? then node else MetaStr(environ, "on_node"))
      ensures fresh(parameters) && fresh(attributes)
      ensures parameters.entries == map[] && attributes.entries == map[]
    {
      this.name := name;
      this.environ := environ;
      this.node := if node.Some? then node else MetaStr(environ, "on_node");
      this.cib := cib;
      parameters := new ParameterCache();
      attributes := new AttributeCache();
    }

    /** `instance`. */
    function InstanceName(): Option<string> {
      Instance(environ)
    }

    /** `peer(n)`: this agent for its own node, otherwise a new agent for `n` that knows only the instance. */
    method Peer(n: string) returns (p: Agent)
      ensures node == Some(n) ==> p == this
      ensures node != Some(n) ==>
        fresh(p) && fresh(p.parameters) && fresh(p.attributes) &&
        p.parameters.entries == map[] && p.attributes.entries == map[] &&
        p.name == name && p.environ == PeerEnviron(environ)
      ensures p.node == Some(n) && p.cib == cib && p.InstanceName() == InstanceName()
    {
      if node == Some(n) {
        p := this;
      } else {
        p := new Agent(name, PeerEnviron(environ), Some(n), cib);
      }
    }

    /** The `*_peers` lists: each node name mapped through `peer`, in the same order. */
    method Peers(unames: seq<string>) returns (ps: seq<Agent>)
      ensures |ps| == |unames|
      ensures forall i :: 0 <= i < |ps| ==> ps[i].node == Some(unames[i]) && ps[i].cib == cib && ps[i].InstanceName() == InstanceName()
      ensures forall i :: 0 <= i < |ps| ==> (ps[i] == this <==> node == Some(unames[i]))
      ensures forall i :: 0 <= i < |ps| && ps[i] != this ==>
        fresh(ps[i]) && fresh(ps[i].attributes) && ps[i].attributes.entries == map[]
      ensures forall i, j :: 0 <= i < j < |ps| && ps[i] != this ==> ps[i] != ps[j] && ps[i].attributes != ps[j].attributes
    {
      ps := [];
      var k := 0;
      while k < |unames|
        invariant k <= |unames| && |ps| == k
        invariant forall i :: 0 <= i < k ==> ps[i].node == Some(unames[i]) && ps[i].cib == cib && ps[i].InstanceName() == InstanceName()
        invariant forall i :: 0 <= i < k ==> (ps[i] == this <==> node == Some(unames[i]))
        invariant forall i :: 0 <= i < k && ps[i] != this ==>
          fresh(ps[i]) && fresh(ps[i].attributes) && ps[i].attributes.entries == map[]
        invariant forall i, j :: 0 <= i < j < k && ps[i] != this ==> ps[i] != ps[j] && ps[i].attributes != ps[j].attributes
      {
        var p := Peer(unames[k]);
        ps := ps + [p];
        k := k + 1;
      }
    }

    /** `trigger_promote(score)`: write the master score. */
    method TriggerPromote(score: int) returns (r: Result<()>)
      requires cib.Valid()
      modifies attributes, cib
      ensures (r, View(attributes.entries, cib.attrs))
        == SetStep(View(old(attributes.entries), old(cib.attrs)), cib.failures, SCORE, node, InstanceName(), IntValue(score))
    {
      r := Set(attributes, cib, SCORE, node, InstanceName(), IntValue(score));
    }

    /** `trigger_demote()`: delete the master score. */
    method TriggerDemote() returns (r: Result<()>)
      requires cib.Valid()
      modifies attributes, cib
      ensures (r, View(attributes.entries, cib.attrs))
        == DeleteStep(View(old(attributes.entries), old(cib.attrs)), cib.failures, SCORE, node, InstanceName())
    {
      r := OcfAttribute.Delete(attributes, cib, SCORE, node, InstanceName());
    }

    /** Read the master score. */
    method Score() returns (r: Result<Option<Value>>)
      modifies attributes, cib
      ensures (r, View(attributes.entries, cib.attrs))
        == GetStep(View(old(attributes.entries), old(cib.attrs)), cib.failures, SCORE, node, InstanceName())
    {
      r := Get(attributes, cib, SCORE, node, InstanceName());
    }
  }

  /** After a successful promotion the agent reads back the score it wrote; after a demotion, None. */
  lemma PromoteDemoteReadBack(v: View, failures: map<StoreKey, Completed>, node: Option<string>, instance: Option<string>, score: int)
    ensures var (r, v1) := SetStep(v, failures, SCORE, node, instance, IntValue(score));
      r.Ok? ==> GetStep(v1, failures, SCORE, node, instance).0 == Ok(Some(IntValue(score)))
    ensures var (r, v1) := DeleteStep(v, failures, SCORE, node, instance);
      r.Ok? ==> GetStep(v1, failures, SCORE, node, instance).0 == Ok(None)
  {
    var (r, v1) := SetStep(v, failures, SCORE, node, instance, IntValue(score));
    if r.Ok? {
      SetThenGet(v, failures, SCORE, node, instance, IntValue(score));
    }
    var (r2, v2) := DeleteStep(v, failures, SCORE, node, instance);
    if r2.Ok? {
      DeleteThenGet(v, failures, SCORE, node, instance);
    }
  }

  /** A promotion is seen by every agent of the same instance, through the store. */
  lemma PromotionVisibleToOthers(v: View, failures: map<StoreKey, Completed>, node: Option<string>, instance: Option<string>,
                                 score: int)
    requires Key(SCORE, node, instance) !in failures
    ensures var v1 := SetStep(v, failures, SCORE, node, instance, IntValue(score)).1;
      QueryResult(v1.attrs, failures, Key(SCORE, node, instance), IntType, None) == Ok(Some(IntValue(score)))
  {
    UpdateThenQuery(v.attrs, failures, Key(SCORE, node, instance), IntValue(score), None);
  }

  /** The actions of `_ACTIONS`. */
  datatype ActionName = MetaData | ValidateAll | Notify | Monitor | Start | Promote | Demote | Stop

  /** `_ACTIONS`: the command-line name of each action. */
  function ActionWord(a: ActionName): string {
    match a
    case MetaData => "meta-data"
    case ValidateAll => "validate-all"
    case Notify => "notify"
    case Monitor => "monitor"
    case Start => "start"
    case Promote => "promote"
    case Demote => "demote"
    case Stop => "stop"
  }

  /** The action a single command-line word names, if any. */
  function ActionOf(word: string): (r: Option<ActionName>)
    ensures r.Some? ==> ActionWord(r.value) == word
  {
    if word == "meta-data" then Some(MetaData)
    else if word == "validate-all" then Some(ValidateAll)
    else if word == "notify" then Some(Notify)
    else if word == "monitor" then Some(Monitor)
    else if word == "start" then Some(Start)
    else if word == "promote" then Some(Promote)
    else if word == "demote" then Some(Demote)
    else if word == "stop" then Some(Stop)
    else None
  }

  /**
   * How argparse reads one command-line word of `dispatch`'s parser, whose
   * only option is the default `-h`/`--help` and whose only positional
   * argument is the action.
   */
  datatype ArgKind =
    | Word       // a positional argument
    | HelpFlag   // `-h`, `--help`, an abbreviation of it, or `-h` repeated as in `-hhh`
    | BadFlag    // the help option given an argument, which argparse refuses
    | CrashFlag  // `-h=`: argparse indexes the empty explicit argument and raises IndexError
    | OtherFlag  // an unknown option, reported once the whole line has been read

  /** The text before the first `=`. */
  function BeforeEquals(s: string): (r: string)
    ensures |r| <= |s| && r == s[..|r|] && '=' !in r
    ensures |r| < |s| ==> s[|r|] == '='
  {
    if |s| == 0 || s[0] == '=' then "" else [s[0]] + BeforeEquals(s[1..])
  }

  /** `^-\d+$|^-\d*\.\d+$`, where `$` also matches before a final newline. */
  predicate NegativeNumber(s: string) {
    var t := if |s| > 0 && s[|s| - 1] == '\n' then s[..|s| - 1] else s;
    |t| > 1 && t[0] == '-' &&
    (AllDigits(t[1..]) || exists d :: 1 <= d < |t| - 1 && t[d] == '.' && AllDigits(t[1..d]) && AllDigits(t[d + 1..]))
  }

  /** `-h` followed by the explicit argument `rest`: each further `h` is `-h` again, anything else is refused. */
  function CombinedHelp(rest: string): ArgKind {
    if rest == "" then CrashFlag
    else if forall i :: 0 <= i < |rest| ==> rest[i] == 'h' then HelpFlag
    else BadFlag
  }

  /** An option-like word that names no option: a negative number or a word with a space is positional. */
  function Unmatched(arg: string): ArgKind {
    if NegativeNumber(arg) || ' ' in arg then Word else OtherFlag
  }

  /** `_parse_optional` of argparse, followed by how `consume_optional` treats what it found. */
  function ArgKindOf(arg: string): ArgKind {
    if |arg| == 0 || arg[0] != '-' then Word
    else if arg == "-h" || arg == "--help" then HelpFlag
    else if |arg| == 1 then Word
    else if '=' in arg && BeforeEquals(arg) == "--help" then BadFlag
    else if '=' in arg && BeforeEquals(arg) == "-h" then CombinedHelp(arg[|BeforeEquals(arg)| + 1..])
    else if arg[1] == '-' then
      var prefix := BeforeEquals(arg);
      if StartsWith("--help", prefix) then (if '=' in arg then BadFlag else HelpFlag)
      else Unmatched(arg)
    else if arg[1] == 'h' then CombinedHelp(arg[2..])
    else Unmatched(arg)
  }

  /** What `parser.parse_args(args)` ends in. */
  datatype ParseOutcome =
    | Run(action: ActionName)  // the action named by the one positional argument
    | Help                     // help printed, exit status 0
    | Usage                    // usage error, exit status 2
    | Crash                    // an uncaught exception inside argparse

  /**
   * argparse reading the words left to right: a `--` ends the options, the
   * help option ends the parse at once, the first positional argument must
   * be an action's name, and a second positional argument or an unknown
   * option is refused once every word has been read.
   */
  function Scan(args: seq<string>, separated: bool, action: Option<ActionName>, extra: bool): ParseOutcome
    decreases |args|
  {
    if |args| == 0 then (if action.Some? && !extra then Run(action.value) else Usage)
    else if !separated && args[0] == "--" then Scan(args[1..], true, action, extra)
    else match (if separated then Word else ArgKindOf(args[0]))
      case HelpFlag => Help
      case BadFlag => Usage
      case CrashFlag => Crash
      case OtherFlag => Scan(args[1..], separated, action, true)
      case Word =>
        if action.Some? then Scan(args[1..], separated, action, true)
        else match ActionOf(args[0])
          case None => Usage
          case Some(a) => Scan(args[1..], separated, Some(a), extra)
  }

  /**
   * The argument parser of `dispatch`. An action runs only when the line is
   * its name, alone or with the separator `--` before or after it.
   */
  function ParseAction(args: seq<string>): (r: ParseOutcome)
    ensures r.Run? ==> args in {[ActionWord(r.action)], ["--", ActionWord(r.action)], [ActionWord(r.action), "--"]}
  {
    ScanRun(args, false, None, false);
    Scan(args, false, None, false)
  }

  lemma {:induction false} ScanRun(args: seq<string>, separated: bool, action: Option<ActionName>, extra: bool)
    requires action.Some? ==> !extra
    ensures var r := Scan(args, separated, action, extra);
      r.Run? ==>
        if action.Some? then r.action == action.value && (args == [] || (!separated && args == ["--"]))
        else if separated then args == [ActionWord(r.action)]
        else args in {[ActionWord(r.action)], ["--", ActionWord(r.action)], [ActionWord(r.action), "--"]}
  {
    if |args| > 0 {
      var rest := args[1..];
      assert args == [args[0]] + rest;
      if !separated && args[0] == "--" {
        ScanRun(rest, true, action, extra);
        var r := Scan(rest, true, action, extra);
        if r.Run? && action.None? {
          assert args == ["--", ActionWord(r.action)];
        }
      } else {
        var kind := if separated then Word else ArgKindOf(args[0]);
        if kind == OtherFlag {
          ScanRunExtra(rest, separated, action);
        } else if kind == Word {
          if action.Some? {
            ScanRunExtra(rest, separated, action);
          } else if ActionOf(args[0]).Some? && extra {
            ScanRunExtra(rest, separated, ActionOf(args[0]));
          } else if ActionOf(args[0]).Some? {
            ScanRun(rest, separated, ActionOf(args[0]), extra);
            var w := ActionWord(ActionOf(args[0]).value);
            assert args[0] == w;
            if rest == [] {
              assert args == [w];
            } else if rest == ["--"] {
              assert args == [w, "--"];
            }
          }
        }
      }
    }
  }

  /** Once a word has been refused, the parse can still end in help, but never runs an action. */
  lemma {:induction false} ScanRunExtra(args: seq<string>, separated: bool, action: Option<ActionName>)
    ensures !Scan(args, separated, action, true).Run?
  {
    if |args| > 0 {
      if !separated && args[0] == "--" {
        ScanRunExtra(args[1..], true, action);
      } else {
        var kind := if separated then Word else ArgKindOf(args[0]);
        if kind == OtherFlag || (kind == Word && action.Some?) {
          ScanRunExtra(args[1..], separated, action);
        } else if kind == Word && ActionOf(args[0]).Some? {
          ScanRunExtra(args[1..], separated, ActionOf(args[0]));
        }
      }
    }
  }

  /** Every action in the table is dispatchable by its name, alone or with `--` before or after it. */
  lemma {:induction false} ParseActionWord(a: ActionName)
    ensures ParseAction([ActionWord(a)]) == Run(a)
    ensures ParseAction(["--", ActionWord(a)]) == Run(a)
    ensures ParseAction([ActionWord(a), "--"]) == Run(a)
  {
    var w := ActionWord(a);
    assert ActionOf(w) == Some(a) by {
      match a
      case MetaData =>
      case ValidateAll =>
      case Notify =>
      case Monitor =>
      case Start =>
      case Promote =>
      case Demote =>
      case Stop =>
    }
    assert ArgKindOf(w) == Word by {
      assert w[0] != '-';
    }
    assert [w][1..] == [] && ["--", w][1..] == [w] && [w, "--"][1..] == ["--"] && ["--"][1..] == [];
    assert Scan([], false, Some(a), false) == Run(a);
    assert Scan([], true, Some(a), false) == Run(a);
    assert Scan([w], true, None, false) == Scan([], true, Some(a), false);
    assert Scan(["--"], false, Some(a), false) == Scan([], true, Some(a), false);
    assert Scan([w], false, None, false) == Scan([], false, Some(a), false);
    assert Scan(["--", w], false, None, false) == Scan([w], true, None, false);
    assert Scan([w, "--"], false, None, false) == Scan(["--"], false, Some(a), false);
  }

  /** The names of the table are distinct, so dispatch is unambiguous. */
  lemma ActionWordsDistinct(a: ActionName, b: ActionName)
    requires ActionWord(a) == ActionWord(b)
    ensures a == b
  {
    ParseActionWord(a);
    ParseActionWord(b);
  }

  /**
   * A line of words none of which looks like an option runs an action
   * exactly when it is one word naming it, and is otherwise refused.
   */
  lemma ParseActionRefuses(args: seq<string>)
    requires forall i :: 0 <= i < |args| ==> |args[i]| == 0 || args[i][0] != '-'
    ensures ParseAction(args) == if |args| == 1 && ActionOf(args[0]).Some? then Run(ActionOf(args[0]).value) else Usage
  {
    if |args| > 0 {
      assert ArgKindOf(args[0]) == Word;
      if ActionOf(args[0]).Some? {
        ScanWords(args[1..], ActionOf(args[0]).value);
      }
    }
  }

  lemma {:induction false} ScanWords(args: seq<string>, a: ActionName)
    requires forall i :: 0 <= i < |args| ==> |args[i]| == 0 || args[i][0] != '-'
    ensures Scan(args, false, Some(a), false) == if |args| == 0 then Run(a) else Usage
  {
    if |args| > 0 {
      assert ArgKindOf(args[0]) == Word;
      ScanWordsExtra(args[1..], a);
    }
  }

  lemma {:induction false} ScanWordsExtra(args: seq<string>, a: ActionName)
    requires forall i :: 0 <= i < |args| ==> |args[i]| == 0 || args[i][0] != '-'
    ensures Scan(args, false, Some(a), true) == Usage
  {
    if |args| > 0 {
      assert ArgKindOf(args[0]) == Word;
      ScanWordsExtra(args[1..], a);
    }
  }

  /**
   * Help leading the line ends the parse in help whatever follows: `-h`,
   * `--help`, its abbreviations from `--h` on, and `-h` repeated.
   */
  lemma HelpFirst(flag: string, rest: seq<string>)
    requires flag == "-h" || (3 <= |flag| && StartsWith("--help", flag)) || (|flag| > 2 && flag[..2] == "-h" && forall i :: 2 <= i < |flag| ==> flag[i] == 'h')
    ensures ParseAction([flag] + rest) == Help
  {
    assert ([flag] + rest)[0] == flag;
    assert '=' !in flag by {
      assert forall i :: 0 <= i < |flag| ==> flag[i] in "-help";
    }
    if |flag| > 2 && flag[1] == 'h' {
      assert flag[2..][0] == 'h';
    }
  }

  /** `-h=` makes argparse index an empty string, an exception nothing catches; `--help=` is refused. */
  lemma HelpWithEmptyArgument()
    ensures ParseAction(["-h="]) == Crash
    ensures ParseAction(["--help="]) == Usage
  {
    assert BeforeEquals("-h=") == "-h" by {
      assert BeforeEquals("=") == "";
    }
    assert BeforeEquals("--help=") == "--help" by {
      assert BeforeEquals("=") == "";
      assert "--help="[1..] == "-help=";
      assert BeforeEquals("p=") == "p";
      assert BeforeEquals("lp=") == "lp";
      assert BeforeEquals("elp=") == "elp";
      assert BeforeEquals("help=") == "help";
      assert BeforeEquals("-help=") == "-help";
    }
    assert "-h="[|"-h"| + 1..] == "";
  }

  /** After `--` every word is positional: `-- -h` names no action and is refused. */
  lemma SeparatedHelpRefused()
    ensures ParseAction(["--", "-h"]) == Usage
  {
    assert ["--", "-h"][1..] == ["-h"];
  }

  /** A refused word that comes first wins over help that comes after it. */
  lemma RefusedBeforeHelp(word: string)
    requires |word| > 0 && word[0] != '-' && ActionOf(word).None?
    ensures ParseAction([word, "-h"]) == Usage
  {
  }

  /** An unknown option or a second action is reported only at the end, so help after it still wins. */
  lemma HelpAfterExtra(a: ActionName)
    ensures ParseAction([ActionWord(a), "--verbose", "-h"]) == Help
    ensures ParseAction([ActionWord(a), ActionWord(a), "-h"]) == Help
    ensures ParseAction([ActionWord(a), "--verbose"]) == Usage
  {
    ParseActionWord(a);
    var w := ActionWord(a);
    assert ArgKindOf(w) == Word by {
      assert w[0] != '-';
    }
    VerboseIsUnknown();
    assert [w, "--verbose", "-h"][1..] == ["--verbose", "-h"] && ["--verbose", "-h"][1..] == ["-h"];
    assert [w, w, "-h"][1..] == [w, "-h"] && [w, "-h"][1..] == ["-h"];
    assert [w, "--verbose"][1..] == ["--verbose"] && ["--verbose"][1..] == [];
    assert Scan(["-h"], false, Some(a), true) == Help;
    assert Scan(["--verbose", "-h"], false, Some(a), false) == Scan(["-h"], false, Some(a), true);
    assert Scan([w, "-h"], false, Some(a), false) == Scan(["-h"], false, Some(a), true);
    assert Scan([], false, Some(a), true) == Usage;
    assert Scan(["--verbose"], false, Some(a), false) == Scan([], false, Some(a), true);
  }

  /** `--verbose` names no option of the parser. */
  lemma VerboseIsUnknown()
    ensures ArgKindOf("--verbose") == OtherFlag
  {
    var v := "--verbose";
    assert |v| == 9 && v[1] == '-' && v[2] == 'v' && v[8] == 'e';
    assert '=' !in v && ' ' !in v by {
      assert forall i :: 0 <= i < |v| ==> v[i] != '=' && v[i] != ' ';
    }
    UnknownLongOption(v);
  }

  /** A long option that does not abbreviate `--help` is unknown to the parser. */
  lemma UnknownLongOption(v: string)
    requires |v| > 2 && v[0] == '-' && v[1] == '-' && v[|v| - 1] != '\n'
    requires '=' !in v && ' ' !in v && !StartsWith("--help", v)
    ensures ArgKindOf(v) == OtherFlag
  {
    BeforeEqualsWhole(v);
    assert !NegativeNumber(v) by {
      assert v[1..][0] == '-';
      forall d | 1 <= d < |v| - 1 && v[d] == '.'
        ensures !AllDigits(v[1..d])
      {
        assert v[1..d][0] == '-';
      }
    }
  }

  lemma {:induction false} BeforeEqualsWhole(s: string)
    requires '=' !in s
    ensures BeforeEquals(s) == s
  {
    if |s| > 0 {
      BeforeEqualsWhole(s[1..]);
    }
  }

  /** How argparse ends a command line it refuses. */
  const USAGE_EXIT: Exit := Exit(ERR_ARGS, None)

  /** How argparse ends after printing help. */
  const HELP_EXIT: Exit := Exit(SUCCESS, None)

  /** How the interpreter ends on an exception nothing catches: status 1, with a traceback rather than a reason line. */
  const CRASH_EXIT: Exit := Exit(1, None)

  /**
   * How `dispatch` ends once the action has run: `sys.exit(rc)` for a
   * returned code (None is status 0), `e.exit()` for an OCF error and
   * `GenericError(str(e)).exit()` for any other exception.
   */
  function Completion(outcome: Result<Option<int>>): (x: Exit)
    ensures x.reason.Some? <==> outcome.Err?
    ensures outcome.Ok? ==> x.rc == (if outcome.value.Some? then outcome.value.value else SUCCESS)
    ensures outcome.Err? && outcome.error.Raised? ==> x.rc == ExitRc(outcome.error.cls)
    ensures outcome.Err? && outcome.error.Exception? ==> x.rc == ERR_GENERIC
    ensures outcome.Err? ==> x.rc != SUCCESS
  {
    match outcome
    case Ok(rc) => Exit(if rc.Some? then rc.value else SUCCESS, None)
    case Err(e) => ExitWith(e)
  }

  /** What `dispatch(args)` exits with, given what the named action would do. */
  function DispatchExit(args: seq<string>, outcome: ActionName -> Result<Option<int>>): (x: Exit)
    ensures ParseAction(args) == Usage ==> x == USAGE_EXIT
    ensures ParseAction(args) == Help ==> x == HELP_EXIT
    ensures ParseAction(args) == Crash ==> x == CRASH_EXIT
    ensures ParseAction(args).Run? ==> x == Completion(outcome(ParseAction(args).action))
    ensures x.reason.Some? ==> ParseAction(args).Run? && outcome(ParseAction(args).action).Err?
  {
    match ParseAction(args)
    case Usage => USAGE_EXIT
    case Help => HELP_EXIT
    case Crash => CRASH_EXIT
    case Run(a) => Completion(outcome(a))
  }

  /** A failed action always exits with a reason line and a non-zero status; only a refused command line exits without running anything. */
  lemma DispatchFailureVisible(args: seq<string>, outcome: ActionName -> Result<Option<int>>, a: ActionName)
    requires args == [ActionWord(a)] && outcome(a).Err?
    ensures DispatchExit(args, outcome).rc != SUCCESS && DispatchExit(args, outcome).reason.Some?
    ensures DispatchExit(args, outcome).reason == Some(ReasonLine(ErrorMessage(outcome(a).error)))
  {
    ParseActionWord(a);
  }

  /** The message an error's exit reason is built from. */
  function ErrorMessage(e: Error): string {
    match e
    case Raised(_, message) => message
    case Exception(message) => message
  }

  /** The default actions of `ResourceAgent`; `metadata` is the class's metadata text, None when unset. */
  function BaseAction(a: ActionName, metadata: Option<string>): (r: Result<Option<int>>)
    ensures a in {Start, Promote, Demote, Stop} ==> r.Err? && r.error.Raised? && r.error.cls == UnimplementedError
    ensures a == Monitor ==> r == Ok(Some(NOT_RUNNING))
    ensures a in {ValidateAll, Notify} ==> r == Ok(Some(SUCCESS))
    ensures a == MetaData ==> (r.Ok? <==> metadata.Some?)
  {
    match a
    case MetaData =>
      if metadata.None? then Err(Raised(UnimplementedError, "No metadata available")) else Ok(Some(SUCCESS))
    case ValidateAll => Ok(Some(SUCCESS))
    case Notify => Ok(Some(SUCCESS))
    case Monitor => Ok(Some(NOT_RUNNING))
    case Start => Err(Raised(UnimplementedError, "No start method"))
    case Promote => Err(Raised(UnimplementedError, "No promote method"))
    case Demote => Err(Raised(UnimplementedError, "No demote method"))
    case Stop => Err(Raised(UnimplementedError, "No stop method"))
  }

  /** A bare agent reports itself stopped and refuses to change state with ERR_UNIMPLEMENTED. */
  lemma BaseAgentExits(a: ActionName)
    ensures var x := DispatchExit([ActionWord(a)], b => BaseAction(b, Some("")));
      x.rc == (match a
               case Monitor => NOT_RUNNING
               case MetaData => SUCCESS
               case ValidateAll => SUCCESS
               case Notify => SUCCESS
               case _ => ERR_UNIMPLEMENTED)
  {
    ParseActionWord(a);
  }
}
