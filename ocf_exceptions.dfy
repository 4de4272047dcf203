/**
 * OCF errors (ocf/exceptions.py) and the OCF Resource Agent API return
 * codes they exit with. The codes module of the package is not part of
 * this model; the values below are those of the OCF return-code table.
 */
module OcfExceptions {
  import opened Strings
  import opened Wrappers

  const SUCCESS: int := 0
  const ERR_GENERIC: int := 1
  const ERR_ARGS: int := 2
  const ERR_UNIMPLEMENTED: int := 3
  const ERR_PERM: int := 4
  const ERR_INSTALLED: int := 5
  const ERR_CONFIGURED: int := 6
  const NOT_RUNNING: int := 7
  const RUNNING_MASTER: int := 8
  const FAILED_MASTER: int := 9

  /** The classes of ocf/exceptions.py. */
  datatype ErrorClass =
    | OcfError
    | GenericError
    | UnimplementedError
    | PermError
    | InstalledError
    | ConfiguredError

  /** A raised exception: an OCF error with its class, or any other Python exception. */
  datatype Error =
    | Raised(cls: ErrorClass, message: string)
    | Exception(message: string)

  /** What a Python call either returns or raises. */
  datatype Result<+T> = Ok(value: T) | Err(error: Error) {
    predicate IsFailure() {
      Err?
    }

    function PropagateFailure<U>(): Result<U>
      requires Err?
    {
      Err(error)
    }

    function Extract(): T
      requires Ok?
    {
      value
    }
  }

  /** The class attribute `exit_rc`. */
  function ExitRc(cls: ErrorClass): int {
    match cls
    case OcfError => ERR_GENERIC
    case GenericError => ERR_GENERIC
    case UnimplementedError => ERR_UNIMPLEMENTED
    case PermError => ERR_PERM
    case InstalledError => ERR_INSTALLED
    case ConfiguredError => ERR_CONFIGURED
  }

  /** Only the base class and GenericError share a code; every code is an error code. */
  lemma ExitRcDistinguishesClasses(a: ErrorClass, b: ErrorClass)
    ensures ExitRc(a) == ExitRc(b) <==> a == b || (a in {OcfError, GenericError} && b in {OcfError, GenericError})
    ensures ExitRc(a) != SUCCESS && ExitRc(a) != NOT_RUNNING && ExitRc(a) != RUNNING_MASTER
  {
  }

  /** The lines of a message that are not empty, in order. */
  function NonEmpty(lines: seq<string>): (r: seq<string>)
    ensures forall i :: 0 <= i < |r| ==> r[i] != "" && exists j :: 0 <= j < |lines| && lines[j] == r[i]
    ensures (forall j :: 0 <= j < |lines| ==> lines[j] != "") ==> r == lines
  {
    if |lines| == 0 then []
    else
      var rest := NonEmpty(lines[1..]);
      assert forall i :: 0 <= i < |rest| ==> exists j :: 0 <= j < |lines| && lines[j] == rest[i] by {
        forall i | 0 <= i < |rest| ensures exists j :: 0 <= j < |lines| && lines[j] == rest[i] {
          var j :| 0 <= j < |lines[1..]| && lines[1..][j] == rest[i];
          assert lines[j + 1] == rest[i];
        }
      }
      if lines[0] == "" then rest
      else
        assert lines[0] == ([lines[0]] + rest)[0];
        assert (forall j :: 0 <= j < |lines| ==> lines[j] != "") ==> [lines[0]] + rest == lines by {
          if forall j :: 0 <= j < |lines| ==> lines[j] != "" {
            assert forall j :: 0 <= j < |lines[1..]| ==> lines[1..][j] != "" by {
              forall j | 0 <= j < |lines[1..]| ensures lines[1..][j] != "" {
                assert lines[1..][j] == lines[j + 1];
              }
            }
            assert [lines[0]] + lines[1..] == lines;
          }
        }
        [lines[0]] + rest
  }

  /** Filtering two blocks of lines one after the other is filtering the whole. */
  lemma {:induction false} NonEmptyAppend(a: seq<string>, b: seq<string>)
    ensures NonEmpty(a + b) == NonEmpty(a) + NonEmpty(b)
  {
    if |a| == 0 {
      assert a + b == b;
    } else {
      assert (a + b)[0] == a[0] && (a + b)[1..] == a[1..] + b;
      NonEmptyAppend(a[1..], b);
    }
  }

  /** A single line is kept exactly when it is not empty. */
  lemma NonEmptyOne(x: string)
    ensures NonEmpty([x]) == if x == "" then [] else [x]
  {
    assert [x][1..] == [];
  }

  /** The text `OcfError.exit` writes to standard error. */
  function ReasonLine(message: string): string {
    "ocf-exit-reason:" + Join(" | ", NonEmpty(SplitOn(message, '\n'))) + "\n"
  }

  /** The status and reason an invocation ends with. */
  datatype Exit = Exit(rc: int, reason: Option<string>)

  /**
   * `e.exit()` for an OCF error, and `GenericError(str(e)).exit()` for any
   * other exception caught at the dispatch boundary.
   */
  function ExitWith(e: Error): (x: Exit)
    ensures x.reason.Some? && x.rc != SUCCESS
    ensures e.Raised? ==> x.rc == ExitRc(e.cls)
    ensures e.Exception? ==> x.rc == ERR_GENERIC
  {
    match e
    case Raised(cls, message) => Exit(ExitRc(cls), Some(ReasonLine(message)))
    case Exception(message) => Exit(ExitRc(GenericError), Some(ReasonLine(message)))
  }

  /** The reason is a single line: its only newline is the last character. */
  lemma ReasonLineIsOneLine(message: string)
    ensures var r := ReasonLine(message);
      |r| > 0 && r[|r| - 1] == '\n' && forall i :: 0 <= i < |r| - 1 ==> r[i] != '\n'
  {
    var pieces := NonEmpty(SplitOn(message, '\n'));
    forall i | 0 <= i < |pieces| ensures '\n' !in pieces[i] {
      var j :| 0 <= j < |SplitOn(message, '\n')| && SplitOn(message, '\n')[j] == pieces[i];
    }
    JoinAvoids(" | ", pieces, '\n');
    var body := Join(" | ", pieces);
    var r := ReasonLine(message);
    assert r == "ocf-exit-reason:" + body + "\n";
    forall i | 0 <= i < |r| - 1 ensures r[i] != '\n' {
      if i >= 16 {
        assert r[i] == body[i - 16];
      }
    }
  }

  /** A join of pieces without `c` by a separator without `c` has no `c`. */
  lemma {:induction false} JoinAvoids(sep: string, xs: seq<string>, c: char)
    requires c !in sep
    requires forall i :: 0 <= i < |xs| ==> c !in xs[i]
    ensures c !in Join(sep, xs)
  {
    if |xs| > 1 {
      JoinAvoids(sep, xs[1..], c);
    }
  }

  /** A one-line message is reported verbatim. */
  lemma ReasonLineOfOneLine(message: string)
    requires message != "" && '\n' !in message
    ensures ReasonLine(message) == "ocf-exit-reason:" + message + "\n"
  {
    SplitOnNoSeparator(message, '\n');
    assert NonEmpty([message]) == [message];
  }

  /**
   * A message written as lines is reported with its non-empty lines joined
   * by ` | `, in their order.
   */
  lemma ReasonLineOfLines(ls: seq<string>)
    requires forall i :: 0 <= i < |ls| ==> '\n' !in ls[i]
    ensures ReasonLine(Join("\n", ls)) == "ocf-exit-reason:" + Join(" | ", NonEmpty(ls)) + "\n"
  {
    if |ls| == 0 {
      assert SplitOn("", '\n') == [""];
      NonEmptyOne("");
    } else {
      assert "\n" == ['\n'];
      SplitOnJoin(ls, '\n');
    }
  }

  /** When no line is empty, every line appears in the reason, in order. */
  lemma ReasonLineKeepsLines(ls: seq<string>)
    requires forall i :: 0 <= i < |ls| ==> ls[i] != "" && '\n' !in ls[i]
    ensures ReasonLine(Join("\n", ls)) == "ocf-exit-reason:" + Join(" | ", ls) + "\n"
  {
    ReasonLineOfLines(ls);
  }

  /** Blank lines are dropped: a trailing newline does not change the reason. */
  lemma ReasonLineIgnoresTrailingNewline(message: string)
    ensures ReasonLine(message + "\n") == ReasonLine(message)
  {
    SplitOnSnoc(message, '\n');
    NonEmptyDropsEmpty(SplitOn(message, '\n'));
  }

  lemma {:induction false} SplitOnSnoc(s: string, c: char)
    ensures SplitOn(s + [c], c) == SplitOn(s, c) + [""]
  {
    if |s| == 0 {
      assert SplitOn([c], c) == [""] + SplitOn([], c);
    } else {
      assert (s + [c])[1..] == s[1..] + [c];
      SplitOnSnoc(s[1..], c);
    }
  }

  lemma {:induction false} NonEmptyDropsEmpty(lines: seq<string>)
    ensures NonEmpty(lines + [""]) == NonEmpty(lines)
  {
    if |lines| == 0 {
      assert NonEmpty([""]) == NonEmpty([]);
    } else {
      assert (lines + [""])[1..] == lines[1..] + [""];
      NonEmptyDropsEmpty(lines[1..]);
    }
  }
}
