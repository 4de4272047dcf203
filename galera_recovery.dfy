/**
 * Recovering a node's position from the log of a `wsrep_recover=on` run
 * (`recover_grastate` in systemcloud/galera.py): the first log line that
 * ends in `Recovered position:` and a token gives the state, which is then
 * parsed as `uuid:seqno`.
 */
module GaleraRecovery {
  import opened Wrappers
  import opened Strings
  import opened Numerals
  import opened OcfExceptions
  import opened GaleraState

  const KEY: string := "Recovered position:"

  /** The token after a key: whitespace, then a non-empty run without whitespace up to the end of the line. */
  function TokenAfter(rest: string): (r: Option<string>)
    ensures r.Some? ==> r.value != "" && NoSpace(r.value) && EndsWith(rest, r.value)
    ensures r.Some? ==> AllSpace(rest[..|rest| - |r.value|])
  {
    var t := LStrip(rest);
    if t != "" && NoSpace(t) then Some(t) else None
  }

  predicate KeyAt(line: string, k: nat) {
    k + |KEY| <= |line| && line[k..k + |KEY|] == KEY
  }

  /** The token after an occurrence of the key at `k`, if there is one and a token follows it. */
  function MatchAt(line: string, k: nat): Option<string>
    requires k <= |line|
  {
    if KeyAt(line, k) then TokenAfter(line[k + |KEY|..]) else None
  }

  /**
   * `^.*Recovered position:\s*(\S+)$` on one line, as the regular
   * expression backtracks: the occurrences of the key are tried from the
   * last one at or before `k` down to the first.
   */
  function RecoveredFrom(line: string, k: nat): (r: Option<string>)
    requires k <= |line|
    decreases k
  {
    if MatchAt(line, k).Some? then MatchAt(line, k)
    else if k == 0 then None
    else RecoveredFrom(line, k - 1)
  }

  /** The token a log line (without its newline) gives, if it matches. */
  function Recovered(line: string): Option<string> {
    RecoveredFrom(line, |line|)
  }

  /** The recovered token is found after some occurrence of the key. */
  lemma {:induction false} RecoveredFromKey(line: string, k: nat)
    requires k <= |line|
    ensures RecoveredFrom(line, k).Some? ==>
      exists j :: 0 <= j <= k && KeyAt(line, j) && MatchAt(line, j) == RecoveredFrom(line, k)
  {
    if MatchAt(line, k).None? && k > 0 {
      RecoveredFromKey(line, k - 1);
    }
  }

  /** No occurrence of the key after `k` is followed by a token. */
  lemma {:induction false} RecoveredFromLater(line: string, k: nat, j: nat)
    requires j <= k <= |line|
    requires MatchAt(line, j).Some?
    requires forall i :: j < i <= k ==> MatchAt(line, i).None?
    ensures RecoveredFrom(line, k) == MatchAt(line, j)
  {
    if k > j {
      assert MatchAt(line, k).None?;
      RecoveredFromLater(line, k - 1, j);
    }
  }

  /** The key's only capital R is its first character, and it holds a space. */
  lemma KeyShape()
    ensures KEY[0] == 'R' && forall i :: 0 < i < |KEY| ==> KEY[i] != 'R'
    ensures IsSpace(KEY[9])
  {
  }

  lemma {:induction false} StripToToken(ws: string, token: string)
    requires AllSpace(ws) && token != "" && !IsSpace(token[0])
    ensures LeadingSpace(ws + token) == |ws|
    ensures LStrip(ws + token) == token
  {
    if |ws| > 0 {
      assert (ws + token)[1..] == ws[1..] + token;
      StripToToken(ws[1..], token);
    }
  }

  /** The key occurs nowhere after its place in a reporting line. */
  lemma NoLaterKey(prefix: string, ws: string, token: string, i: nat)
    requires AllSpace(ws) && NoSpace(token)
    requires |prefix| < i
    ensures !KeyAt(prefix + KEY + ws + token, i)
  {
    var line := prefix + KEY + ws + token;
    var j := |prefix|;
    KeyShape();
    if i + |KEY| <= |line| {
      var w := line[i..i + |KEY|];
      if i < j + |KEY| {
        assert w[0] == KEY[i - j];
      } else if i < j + |KEY| + |ws| {
        assert w[0] == ws[i - j - |KEY|];
      } else {
        assert w[9] == token[i + 9 - j - |KEY| - |ws|];
      }
    }
  }

  /**
   * A line ending in the key, whitespace and a token gives that token,
   * whatever comes before the key.
   */
  lemma RecoveredLine(prefix: string, ws: string, token: string)
    requires AllSpace(ws) && token != "" && NoSpace(token)
    ensures Recovered(prefix + KEY + ws + token) == Some(token)
  {
    var line := prefix + KEY + ws + token;
    var j := |prefix|;
    assert line[j..j + |KEY|] == KEY;
    assert line[j + |KEY|..] == ws + token;
    StripToToken(ws, token);
    forall i | j < i <= |line|
      ensures MatchAt(line, i).None?
    {
      NoLaterKey(prefix, ws, token, i);
    }
    RecoveredFromLater(line, |line|, j);
  }

  /** `next(m for m in ... if m)`: the token of the first matching line. */
  function FirstRecovered(lines: seq<string>): Option<string> {
    if |lines| == 0 then None
    else if Recovered(lines[0]).Some? then Recovered(lines[0])
    else FirstRecovered(lines[1..])
  }

  /** The first matching line decides, whatever the lines after it say. */
  lemma {:induction false} FirstRecoveredAt(lines: seq<string>, i: nat)
    requires i < |lines| && Recovered(lines[i]).Some?
    requires forall j :: 0 <= j < i ==> Recovered(lines[j]).None?
    ensures FirstRecovered(lines) == Recovered(lines[i])
  {
    if i > 0 {
      FirstRecoveredAt(lines[1..], i - 1);
    }
  }

  /** No line matches exactly when there is no token. */
  lemma {:induction false} FirstRecoveredNone(lines: seq<string>)
    ensures FirstRecovered(lines).None? <==> forall j :: 0 <= j < |lines| ==> Recovered(lines[j]).None?
  {
    if |lines| > 0 {
      FirstRecoveredNone(lines[1..]);
      if Recovered(lines[0]).None? {
        assert forall j :: 1 <= j < |lines| ==> lines[j] == lines[1..][j - 1];
      }
    }
  }

  /**
   * The state a recovery log gives: the first matching line's token parsed
   * as `uuid:seqno`; a GenericError naming the log file when no line
   * matches or the token does not parse.
   */
  function RecoverFromLog(logfile: string, log: string): (r: Result<State>)
    ensures r.Ok? ==> WellFormed(r.value)
    ensures r.Err? ==> r.error.Raised? && r.error.cls == GenericError && EndsWith(r.error.message, "see " + logfile)
  {
    match FirstRecovered(SplitOn(log, '\n'))
    case None => Err(Raised(GenericError, "Recovery failed: see " + logfile))
    case Some(token) =>
      match Parse(token)
      case Ok(st) => Ok(st)
      case Err(e) => Err(Raised(GenericError, e.message + ": see " + logfile))
  }

  lemma FormatNoSpace(st: State)
    requires WellFormed(st)
    ensures Format(st) != "" && NoSpace(Format(st))
  {
    ValidUuidCharacters(st.uuid);
    var digits := NatToString(if st.seqno < 0 then -st.seqno else st.seqno);
    DigitsNoSpace(digits);
    if st.seqno < 0 {
      SignedNoSpace(digits);
    }
    assert IntToString(st.seqno) == if st.seqno < 0 then "-" + digits else digits;
    var f := Format(st);
    forall i | 0 <= i < |f|
      ensures !IsSpace(f[i])
    {
      if i < |st.uuid| {
        assert f[i] == st.uuid[i];
      } else if i > |st.uuid| {
        assert f[i] == IntToString(st.seqno)[i - |st.uuid| - 1];
      }
    }
  }

  /** A line reporting a well-formed state is one line, and gives that state's text. */
  lemma ReportedLine(prefix: string, ws: string, st: State)
    requires WellFormed(st) && AllSpace(ws) && '\n' !in prefix && '\n' !in ws
    ensures var line := prefix + KEY + ws + Format(st);
      '\n' !in line && Recovered(line) == Some(Format(st))
  {
    FormatNoSpace(st);
    RecoveredLine(prefix, ws, Format(st));
    assert '\n' !in KEY;
    assert forall i :: 0 <= i < |Format(st)| ==> Format(st)[i] != '\n';
  }

  /**
   * A log whose earlier lines do not match, followed by a line that reports
   * a well-formed state, recovers exactly that state.
   */
  lemma RecoverReported(logfile: string, earlier: seq<string>, prefix: string, ws: string, st: State)
    requires WellFormed(st) && AllSpace(ws)
    requires forall i :: 0 <= i < |earlier| ==> '\n' !in earlier[i] && Recovered(earlier[i]).None?
    requires '\n' !in prefix && '\n' !in ws
    ensures RecoverFromLog(logfile, Join("\n", earlier + [prefix + KEY + ws + Format(st)])) == Ok(st)
  {
    var line := prefix + KEY + ws + Format(st);
    ReportedLine(prefix, ws, st);
    FirstRecoveredLast(earlier, line);
    LinesOfLog(earlier, line);
    ParseFormat(st);
  }

  /** The first matching line of a log is its last when no earlier line matches. */
  lemma FirstRecoveredLast(earlier: seq<string>, line: string)
    requires forall i :: 0 <= i < |earlier| ==> Recovered(earlier[i]).None?
    requires Recovered(line).Some?
    ensures FirstRecovered(earlier + [line]) == Recovered(line)
  {
    var lines := earlier + [line];
    assert lines[|earlier|] == line;
    assert forall i :: 0 <= i < |earlier| ==> lines[i] == earlier[i];
    FirstRecoveredAt(lines, |earlier|);
  }

  /** A log written line by line splits back into those lines. */
  lemma LinesOfLog(earlier: seq<string>, line: string)
    requires forall i :: 0 <= i < |earlier| ==> '\n' !in earlier[i]
    requires '\n' !in line
    ensures SplitOn(Join("\n", earlier + [line]), '\n') == earlier + [line]
  {
    var lines := earlier + [line];
    assert forall i :: 0 <= i < |lines| ==> lines[i] == if i < |earlier| then earlier[i] else line;
    assert "\n" == ['\n'];
    SplitOnJoin(lines, '\n');
  }
}
