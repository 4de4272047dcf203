/**
 * The Galera agent's hooks into the bootstrapping agent
 * (systemcloud/galera.py): `reconfigure` writes the MySQL configuration
 * fragment that tells Galera which peers it may join and where to start
 * from, and forces `safe_to_bootstrap` on the node that bootstraps a new
 * cluster; `service_start`, `master_start` and `master_stop` keep the
 * node's recorded `state` and the cluster-wide `uuid` attribute in step
 * with the state file and refuse a node whose UUID belongs to another cluster.
 */
module GaleraAgent {
  import opened Wrappers
  import opened Strings
  import opened OcfExceptions
  import opened GaleraState
  import opened GaleraGrastate
  import opened GaleraForceSafe
  import opened Numerals
  import opened GaleraRecovery

  /** The peer name given to a node that must not join any cluster. */
  const NOT_ALLOWED: string := "--NOT-ALLOWED--"

  const ADDRESS_PREFIX: string := "wsrep_cluster_address=gcomm://"
  const START_PREFIX: string := "wsrep_start_position="

  /** The peers `wsrep_cluster_address` names: the masters when promoting or already a master, else none allowed. */
  function WsrepPeers(masters: seq<string>, promoting: bool, node: string): (r: seq<string>)
    ensures forall p :: p in r ==> p in masters || p == NOT_ALLOWED
    ensures |r| == 0 <==> promoting && |masters| == 0
    ensures !promoting && node !in masters ==> r == [NOT_ALLOWED]
  {
    if promoting || node in masters then masters else [NOT_ALLOWED]
  }

  /** `if self.state:`: a state is set and its sequence number is known. */
  predicate HasPosition(state: Option<State>) {
    state.Some? && Truthy(state.value)
  }

  /**
   * The configuration fragment `reconfigure` writes; `now` stands for the
   * time it was regenerated, and `recoveryLog` is the log file of a
   * recovery run.
   */
  function ConfigLines(now: string, node: string, allUnames: seq<string>, masters: seq<string>, promoting: bool,
                       state: Option<State>, recoveryLog: Option<string>, initFile: string): (r: seq<string>)
    ensures |r| == 12 + (if HasPosition(state) then 1 else 0) + (if recoveryLog.Some? then 2 else 0)
    ensures r[..12] == HeaderLines(now, node, allUnames, masters, promoting, initFile)
    ensures HasPosition(state) ==> r[12] == START_PREFIX + Format(state.value) + "\n"
    ensures recoveryLog.Some? ==> r[|r| - 2] == "wsrep_recover=on\n" && r[|r| - 1] == "log_error=" + recoveryLog.value
  {
    HeaderLines(now, node, allUnames, masters, promoting, initFile) + PositionLines(state) + RecoveryLines(recoveryLog)
  }

  /** A comment line of the fragment. */
  function Comment(text: string): string {
    "# " + text + "\n"
  }

  /** The twelve lines every fragment starts with. */
  function HeaderLines(now: string, node: string, allUnames: seq<string>, masters: seq<string>, promoting: bool,
                       initFile: string): (r: seq<string>)
    ensures |r| == 12 && forall i :: 0 <= i < 8 ==> |r[i]| > 0 && r[i][0] == '#'
    ensures r[8] == "[mysqld]\n"
    ensures r[9] == ADDRESS_PREFIX + Join(",", WsrepPeers(masters, promoting, node)) + "\n"
    ensures r[11] == "init_file=" + initFile + "\n"
  {
    [Comment("Autogenerated by systemcloud - do not edit"),
     "#\n",
     Comment("Last regenerated: " + now),
     "#\n",
     Comment("This node: " + node),
     Comment("All nodes: " + Join(" ", allUnames)),
     Comment("Master nodes: " + Join(" ", masters)),
     "#\n",
     "[mysqld]\n",
     ADDRESS_PREFIX + Join(",", WsrepPeers(masters, promoting, node)) + "\n",
     "plugin_load_add=auth_socket.so\n",
     "init_file=" + initFile + "\n"]
  }

  /** The start position, given only for a known state. */
  function PositionLines(state: Option<State>): (r: seq<string>)
    ensures |r| == (if HasPosition(state) then 1 else 0)
    ensures |r| == 1 ==>
      StartsWith(r[0], START_PREFIX) && EndsWith(r[0], "\n") && |r[0]| > |START_PREFIX| &&
      r[0][|START_PREFIX|..|r[0]| - 1] == Format(state.value)
  {
    if HasPosition(state) then [START_PREFIX + Format(state.value) + "\n"] else []
  }

  /** The lines that turn on recovery mode, logging to the given file. */
  function RecoveryLines(recoveryLog: Option<string>): (r: seq<string>)
    ensures |r| == 0 <==> recoveryLog.None?
    ensures recoveryLog.Some? ==> "wsrep_recover=on\n" in r && EndsWith(r[|r| - 1], recoveryLog.value)
  {
    if recoveryLog.Some? then ["wsrep_recover=on\n", "log_error=" + recoveryLog.value] else []
  }

  /** The initialisation script `reconfigure` writes. */
  function ScriptLines(user: string): (r: seq<string>)
    ensures |r| == 2 && StartsWith(r[0], "CREATE USER IF NOT EXISTS ") && |r[0]| >= 28 && r[0][26..|r[0]| - 2] == user
    ensures r[1] == "IDENTIFIED VIA unix_socket;\n"
  {
    ["CREATE USER IF NOT EXISTS " + user + " \n", "IDENTIFIED VIA unix_socket;\n"]
  }

  /** The peers a `wsrep_cluster_address` line names, read back; None for any other line. */
  function AddressPeers(line: string): Option<seq<string>> {
    if !StartsWith(line, ADDRESS_PREFIX) || !EndsWith(line, "\n") || |line| < |ADDRESS_PREFIX| + 1 then None
    else
      var list := line[|ADDRESS_PREFIX|..|line| - 1];
      Some(if list == "" then [] else SplitOn(list, ','))
  }

  /** Peer names as the cluster manager gives them: not empty, without commas. */
  predicate PlainNames(names: seq<string>) {
    forall i :: 0 <= i < |names| ==> names[i] != "" && ',' !in names[i]
  }

  lemma JoinNonEmpty(xs: seq<string>)
    requires |xs| > 0 && xs[0] != ""
    ensures Join(",", xs) != ""
  {
    if |xs| > 1 {
      assert |Join(",", xs)| >= |xs[0]|;
    }
  }

  /** The address line reads back as exactly the peers it was written from, in order. */
  lemma AddressRoundTrip(peers: seq<string>)
    requires PlainNames(peers)
    ensures AddressPeers(ADDRESS_PREFIX + Join(",", peers) + "\n") == Some(peers)
  {
    var line := ADDRESS_PREFIX + Join(",", peers) + "\n";
    assert line[..|ADDRESS_PREFIX|] == ADDRESS_PREFIX;
    assert line[|line| - 1..] == "\n";
    assert line[|ADDRESS_PREFIX|..|line| - 1] == Join(",", peers);
    if |peers| > 0 {
      JoinNonEmpty(peers);
      assert "," == [','];
      SplitOnJoin(peers, ',');
    }
  }

  /**
   * The node is told to join exactly the running masters when it is being
   * promoted or is already a master, and otherwise only the name no node
   * has; it is told to bootstrap a new cluster (an empty address) only when
   * it is being promoted and no master runs.
   */
  lemma ClusterAddressPeers(masters: seq<string>, promoting: bool, node: string)
    requires PlainNames(masters)
    ensures var peers := AddressPeers(ADDRESS_PREFIX + Join(",", WsrepPeers(masters, promoting, node)) + "\n");
      && (promoting || node in masters ==> peers == Some(masters))
      && (!(promoting || node in masters) ==> peers == Some([NOT_ALLOWED]))
      && (peers == Some([]) <==> promoting && masters == [])
  {
    var p := WsrepPeers(masters, promoting, node);
    assert PlainNames([NOT_ALLOWED]) by {
      assert NOT_ALLOWED[0] == '-';
      assert forall i :: 0 <= i < |NOT_ALLOWED| ==> NOT_ALLOWED[i] != ',';
    }
    AddressRoundTrip(p);
  }

  lemma NotPrefix(s: string, prefix: string, k: nat)
    requires k < |prefix| && k < |s| && s[k] != prefix[k]
    ensures !StartsWith(s, prefix)
  {
    if |prefix| <= |s| {
      assert s[..|prefix|][k] == s[k];
    }
  }

  lemma HeaderWithoutPosition(now: string, node: string, allUnames: seq<string>, masters: seq<string>, promoting: bool,
                              initFile: string)
    ensures var h := HeaderLines(now, node, allUnames, masters, promoting, initFile);
      forall i :: 0 <= i < |h| ==> !StartsWith(h[i], START_PREFIX)
  {
    var h := HeaderLines(now, node, allUnames, masters, promoting, initFile);
    NotPrefix(h[0], START_PREFIX, 0);
    NotPrefix(h[1], START_PREFIX, 0);
    NotPrefix(h[2], START_PREFIX, 0);
    NotPrefix(h[3], START_PREFIX, 0);
    NotPrefix(h[4], START_PREFIX, 0);
    NotPrefix(h[5], START_PREFIX, 0);
    NotPrefix(h[6], START_PREFIX, 0);
    NotPrefix(h[7], START_PREFIX, 0);
    NotPrefix(h[8], START_PREFIX, 0);
    NotPrefix(h[9], START_PREFIX, 6);
    NotPrefix(h[10], START_PREFIX, 0);
    NotPrefix(h[11], START_PREFIX, 0);
  }

  lemma RecoveryWithoutPosition(recoveryLog: Option<string>)
    ensures var t := RecoveryLines(recoveryLog);
      forall i :: 0 <= i < |t| ==> !StartsWith(t[i], START_PREFIX)
  {
    var t := RecoveryLines(recoveryLog);
    forall i | 0 <= i < |t|
      ensures !StartsWith(t[i], START_PREFIX)
    {
      NotPrefix(t[i], START_PREFIX, if i == 0 then 6 else 0);
    }
  }

  /**
   * Exactly one line of the fragment gives a start position, and only for a
   * known state: the thirteenth, naming that state as `uuid:seqno`.
   */
  lemma StartPositionIff(now: string, node: string, allUnames: seq<string>, masters: seq<string>, promoting: bool,
                         state: Option<State>, recoveryLog: Option<string>, initFile: string)
    ensures var lines := ConfigLines(now, node, allUnames, masters, promoting, state, recoveryLog, initFile);
      && (forall i :: 0 <= i < |lines| ==> (StartsWith(lines[i], START_PREFIX) <==> HasPosition(state) && i == 12))
      && (HasPosition(state) ==> lines[12] == START_PREFIX + Format(state.value) + "\n")
  {
    var h := HeaderLines(now, node, allUnames, masters, promoting, initFile);
    var p := PositionLines(state);
    var t := RecoveryLines(recoveryLog);
    var lines := h + p + t;
    HeaderWithoutPosition(now, node, allUnames, masters, promoting, initFile);
    RecoveryWithoutPosition(recoveryLog);
    forall i | 0 <= i < |lines|
      ensures StartsWith(lines[i], START_PREFIX) <==> HasPosition(state) && i == 12
    {
      if i < 12 {
        assert lines[i] == h[i];
      } else if i < 12 + |p| {
        assert lines[i] == p[0];
        assert p[0][..|START_PREFIX|] == START_PREFIX;
      } else {
        assert lines[i] == t[i - 12 - |p|];
      }
    }
  }

  /** `self.uuid`: the UUID of the recorded state, if any. */
  function UuidOf(state: Option<State>): Option<string> {
    if state.Some? then Some(state.value.uuid) else None
  }

  /** `uuid in (ZERO_UUID_STRING, expected)`: a new node, or the expected UUID. */
  predicate Matches(uuid: Option<string>, expected: string) {
    uuid == Some(ZERO_UUID) || uuid == Some(expected)
  }

  /** `read_grastate() or recover_grastate()`: a known state from the file, else the recovered one. */
  function StartState(read: Result<Option<State>>, recovery: Result<State>): (r: Result<State>)
    ensures read.Err? ==> r == Err(read.error)
    ensures read.Ok? && HasPosition(read.value) ==> r == Ok(read.value.value)
    ensures read.Ok? && !HasPosition(read.value) ==> r == recovery
  {
    match read
    case Err(e) => Err(e)
    case Ok(st) => if HasPosition(st) then Ok(st.value) else recovery
  }

  /**
   * `service_start`: what it returns and the state it records, given the
   * recorded state and cluster UUID, what reading the state file gives and
   * what recovery would give.  The state is recorded before the UUID check.
   */
  function ServiceStartOutcome(state: Option<State>, cluster: Option<string>, read: Result<Option<State>>,
                               recovery: Result<State>): (r: (Result<()>, Option<State>))
    ensures read.Err? ==> r == (Err(read.error), state)
    ensures r.0.Ok? ==> r.1.Some? && (cluster.None? || Matches(UuidOf(r.1), cluster.value))
  {
    match StartState(read, recovery)
    case Err(e) => (Err(e), state)
    case Ok(st) =>
      if cluster.Some? && !Matches(Some(st.uuid), cluster.value) then
        (Err(Raised(GenericError, "UUID does not match cluster UUID")), Some(st))
      else (Ok(()), Some(st))
  }

  /**
   * `master_start`: what it returns, the state and cluster UUID it records,
   * given whether the service started and what reading the state file then gives.
   */
  function MasterStartOutcome(state: Option<State>, cluster: Option<string>, started: Result<()>,
                              read: Result<Option<State>>): (r: (Result<()>, Option<State>, Option<string>))
    ensures started.Err? ==> r.0.Err? && r.1 == state && r.2 == cluster
    ensures r.0.Ok? ==> r.1.Some? && Matches(UuidOf(state), r.1.value.uuid)
  {
    if cluster.Some? && !Matches(UuidOf(state), cluster.value) then
      (Err(Raised(GenericError, "UUID does not match cluster UUID")), state, cluster)
    else if started.Err? then (Err(started.error), state, cluster)
    else match read
      case Err(e) => (Err(e), state, cluster)
      case Ok(None) => (Err(Raised(GenericError, "Unable to determine state after promotion")), state, cluster)
      case Ok(Some(st)) =>
        if !Matches(UuidOf(state), st.uuid) then
          (Err(Raised(GenericError, "UUID changed unexpectedly after promotion")), state, cluster)
        else (Ok(()), Some(st), if cluster.None? then Some(st.uuid) else cluster)
  }

  /** `master_stop`: the state file is read once the service stopped, and its state recorded if there is one. */
  function MasterStopOutcome(state: Option<State>, stopped: Result<()>, read: Result<Option<State>>): (r: (Result<()>, Option<State>))
    ensures read == Ok(None) || r.0.Err? ==> r.1 == state
  {
    if stopped.Err? then (Err(stopped.error), state)
    else match read
      case Err(e) => (Err(e), state)
      case Ok(None) => (Ok(()), state)
      case Ok(Some(st)) => (Ok(()), Some(st))
  }

  /**
   * `service_start` records the chosen state even when it then refuses it,
   * and succeeds exactly when a state was found or recovered whose UUID is
   * new or the cluster's.
   */
  lemma ServiceStartChecksCluster(state: Option<State>, cluster: Option<string>, read: Result<Option<State>>,
                                  recovery: Result<State>)
    ensures var (r, recorded) := ServiceStartOutcome(state, cluster, read, recovery);
      var chosen := StartState(read, recovery);
      && (r.Ok? <==> chosen.Ok? && (cluster.None? || Matches(Some(chosen.value.uuid), cluster.value)))
      && recorded == (if chosen.Ok? then Some(chosen.value) else state)
      && (r.Ok? ==> cluster.None? || Matches(UuidOf(recorded), cluster.value))
  {
  }

  /** A node whose state file gives no position takes the one its recovery log reports. */
  lemma ServiceStartRecovers(state: Option<State>, cluster: Option<string>, read: Result<Option<State>>,
                             logfile: string, earlier: seq<string>, prefix: string, ws: string, st: State)
    requires read.Ok? && !HasPosition(read.value)
    requires WellFormed(st) && AllSpace(ws) && '\n' !in prefix && '\n' !in ws
    requires forall i :: 0 <= i < |earlier| ==> '\n' !in earlier[i] && Recovered(earlier[i]).None?
    ensures var recovery := RecoverFromLog(logfile, Join("\n", earlier + [prefix + KEY + ws + Format(st)]));
      ServiceStartOutcome(state, cluster, read, recovery).1 == Some(st)
  {
    RecoverReported(logfile, earlier, prefix, ws, st);
  }

  /**
   * `master_start` never changes a cluster UUID once recorded, records the
   * promoted state's UUID when none was, and succeeds only for a node with
   * a recorded state whose UUID, unless new, the promotion kept; a node
   * whose UUID was the cluster's keeps it.
   */
  lemma MasterStartKeepsCluster(state: Option<State>, cluster: Option<string>, started: Result<()>,
                                read: Result<Option<State>>)
    ensures var (r, promoted, cluster') := MasterStartOutcome(state, cluster, started, read);
      && (cluster.Some? ==> cluster' == cluster)
      && (r.Ok? ==> state.Some? && promoted.Some? && read == Ok(promoted) && cluster'.Some?)
      && (r.Ok? && cluster.None? ==> cluster' == Some(promoted.value.uuid))
      && (r.Ok? && state.value.uuid != ZERO_UUID ==> promoted.value.uuid == state.value.uuid)
      && (r.Ok? && state.value.uuid != ZERO_UUID && cluster.Some? ==> promoted.value.uuid == cluster.value)
      && (r.Err? ==> promoted == state && cluster' == cluster)
  {
  }

  /** `master_stop` never forgets a state and never touches the cluster UUID; it fails only when stopping or reading fails. */
  lemma MasterStopKeepsState(state: Option<State>, stopped: Result<()>, read: Result<Option<State>>)
    ensures var (r, recorded) := MasterStopOutcome(state, stopped, read);
      && (state.Some? ==> recorded.Some?)
      && (r.Ok? <==> stopped.Ok? && read.Ok?)
      && (r.Ok? && read.value.Some? ==> recorded == read.value)
      && (r.Err? ==> recorded == state)
  {
  }

  /**
   * Reconfiguring to bootstrap a new cluster (promoting with no masters)
   * breaks the state file Galera wrote: it reads as the recorded state
   * before, and as corrupt on line 5 after, because the forced
   * `safe_to_bootstrap` line has lost its key and its newline. Any other
   * reconfiguration leaves the file, and what it reads as, alone.
   */
  lemma ReconfigureCorruptsGrastate(file: string, st: State, v: string, promoting: bool, masters: seq<string>)
    requires WellFormed(st) && |v| > 0 && NoSpace(v)
    ensures var before := Concat(GrastateLines(st, v));
      var after := if promoting && |masters| == 0 then ForcedAsWritten(before) else before;
      GrastateOf(file, Some(after)) ==
        if promoting && |masters| == 0 then Err(Raised(GenericError, "Corrupt " + file + " on line 5"))
        else Ok(Some(st))
  {
    if promoting && |masters| == 0 {
      GaleraFileForcedAsWritten(file, st, v);
    } else {
      GrastateRoundTrip(file, st, v);
    }
  }

  const LOCAL_STATE: string := "wsrep_local_state"

  /** The length of the run of digits a string starts with. */
  function DigitRun(s: string): (r: nat)
    ensures r <= |s| && AllDigits(s[..r])
    ensures r < |s| ==> !IsDigit(s[r])
  {
    if |s| == 0 || !IsDigit(s[0]) then 0 else 1 + DigitRun(s[1..])
  }

  /**
   * `^\s*wsrep_local_state\s+(\d+)\s*$` on the status query's output:
   * the local state it reports, if it matches.
   */
  function LocalState(output: string): (r: Option<nat>)
    ensures r.Some? ==> var t := LStrip(output);
      StartsWith(t, LOCAL_STATE) && |t| > |LOCAL_STATE| && IsSpace(t[|LOCAL_STATE|])
  {
    var t := LStrip(output);
    if StartsWith(t, LOCAL_STATE) then StateAfterName(t[|LOCAL_STATE|..]) else None
  }

  /** `\s+(\d+)\s*$`: whitespace, the digits of the state, then nothing but whitespace. */
  function StateAfterName(rest: string): (r: Option<nat>)
    ensures r.Some? ==> |rest| > 0 && IsSpace(rest[0])
  {
    var n := LeadingSpace(rest);
    var d := DigitRun(rest[n..]);
    if n > 0 && d > 0 && AllSpace(rest[n..][d..]) then Some(DigitsValue(rest[n..][..d])) else None
  }

  /**
   * `master_is_running`, given whether the service is active and what the
   * status query printed (or raised): running only when synced.
   */
  function MasterRunning(active: bool, output: Result<string>): (r: Result<bool>)
    ensures !active ==> r == Ok(false)
    ensures r == Ok(true) ==> active && output.Ok? && LocalState(RStripNewlines(output.value)) == Some(WSREP_STATE_SYNCED as nat)
    ensures r.Err? ==> active && ((output.Err? && r.error == output.error) ||
                                  (output.Ok? && r.error.Raised? && r.error.cls == GenericError))
  {
    if !active then Ok(false)
    else match output
      case Err(e) => Err(e)
      case Ok(raw) =>
        var out := RStripNewlines(raw);
        match LocalState(out)
        case None => Err(Raised(GenericError, "Unable to determine state:\n" + out))
        case Some(n) => Ok(n == WSREP_STATE_SYNCED)
  }

  lemma {:induction false} DigitRunThenSpace(digits: string, ws: string)
    requires AllDigits(digits) && AllSpace(ws)
    ensures DigitRun(digits + ws) == |digits|
  {
    if |digits| > 0 {
      assert (digits + ws)[1..] == digits[1..] + ws;
      DigitRunThenSpace(digits[1..], ws);
    } else if |ws| > 0 {
      assert (digits + ws)[0] == ws[0];
    }
  }

  lemma StateAfterNameReported(sep: string, n: nat, post: string)
    requires sep != "" && AllSpace(sep) && AllSpace(post)
    ensures StateAfterName(sep + NatToString(n) + post) == Some(n)
  {
    var digits := NatToString(n);
    var rest := sep + digits + post;
    assert rest == sep + (digits + post);
    StripToToken(sep, digits + post);
    assert rest[|sep|..] == digits + post;
    DigitRunThenSpace(digits, post);
    assert (digits + post)[..|digits|] == digits;
    assert (digits + post)[|digits|..] == post;
    NatToStringValue(n);
  }

  lemma LocalStateName(pre: string, rest: string)
    requires AllSpace(pre)
    ensures LocalState(pre + LOCAL_STATE + rest) == StateAfterName(rest)
  {
    var t := LOCAL_STATE + rest;
    assert pre + LOCAL_STATE + rest == pre + t;
    StripToToken(pre, t);
    assert t[..|LOCAL_STATE|] == LOCAL_STATE;
    assert t[|LOCAL_STATE|..] == rest;
  }

  /** A status line reporting a local state gives back exactly that state. */
  lemma LocalStateReported(pre: string, sep: string, n: nat, post: string)
    requires AllSpace(pre) && sep != "" && AllSpace(sep) && AllSpace(post)
    ensures LocalState(pre + LOCAL_STATE + sep + NatToString(n) + post) == Some(n)
  {
    var rest := sep + NatToString(n) + post;
    assert pre + LOCAL_STATE + sep + NatToString(n) + post == pre + LOCAL_STATE + rest;
    LocalStateName(pre, rest);
    StateAfterNameReported(sep, n, post);
  }

  /** A synced node is running; any other reported state is not, and is no error. */
  lemma MasterRunningReported(sep: string, n: nat)
    requires sep != "" && AllSpace(sep)
    ensures MasterRunning(true, Ok(LOCAL_STATE + sep + NatToString(n) + "\n")) == Ok(n == WSREP_STATE_SYNCED)
  {
    var digits := NatToString(n);
    var line := LOCAL_STATE + sep + digits;
    assert line[|line| - 1] == digits[|digits| - 1];
    assert (line + "\n")[..|line + "\n"| - 1] == line;
    assert RStripNewlines(line + "\n") == line;
    assert line == "" + LOCAL_STATE + sep + digits + "";
    LocalStateReported("", sep, n, "");
  }

  /** The Galera agent on one node, during one action. */
  class GaleraNode {
    /** The contents of grastate.dat; None when the file does not exist. */
    var grastate: Option<string>
    /** The node's `state` attribute. */
    var state: Option<State>
    /** The cluster-wide `uuid` attribute. */
    var clusterUuid: Option<string>
    /** The configuration fragment and the initialisation script last written. */
    var config: seq<string>
    var script: seq<string>
    const node: string
    const allUnames: seq<string>
    /** `current_master_unames`. */
    const masters: seq<string>
    /** `meta_name == 'promote'`. */
    const promoting: bool
    const user: string
    const initFile: string
    const grastateFile: string
    const now: string

    constructor(node: string, allUnames: seq<string>, masters: seq<string>, promoting: bool, user: string,
                initFile: string, grastateFile: string, now: string, grastate: Option<string>,
                state: Option<State>, clusterUuid: Option<string>)
      ensures this.node == node && this.allUnames == allUnames && this.masters == masters
      ensures this.promoting == promoting && this.user == user && this.initFile == initFile
      ensures this.grastateFile == grastateFile && this.now == now
      ensures this.grastate == grastate && this.state == state && this.clusterUuid == clusterUuid
      ensures config == [] && script == []
    {
      this.node := node;
      this.allUnames := allUnames;
      this.masters := masters;
      this.promoting := promoting;
      this.user := user;
      this.initFile := initFile;
      this.grastateFile := grastateFile;
      this.now := now;
      this.grastate := grastate;
      this.state := state;
      this.clusterUuid := clusterUuid;
      config := [];
      script := [];
    }

    /**
     * `reconfigure`: write the fragment and the script, then force
     * `safe_to_bootstrap` in place, as written, when bootstrapping a new
     * cluster.
     */
    method Reconfigure(recoveryLog: Option<string>)
      modifies this
      ensures config == ConfigLines(now, node, allUnames, masters, promoting, state, recoveryLog, initFile)
      ensures script == ScriptLines(user)
      ensures state == old(state) && clusterUuid == old(clusterUuid)
      ensures grastate ==
        if promoting && |masters| == 0 && old(grastate).Some? then Some(ForcedAsWritten(old(grastate).value)) else old(grastate)
    {
      var peers := if promoting || node in masters then masters else [NOT_ALLOWED];
      assert peers == WsrepPeers(masters, promoting, node);
      var lines := [Comment("Autogenerated by systemcloud - do not edit"),
                    "#\n",
                    Comment("Last regenerated: " + now),
                    "#\n",
                    Comment("This node: " + node),
                    Comment("All nodes: " + Join(" ", allUnames)),
                    Comment("Master nodes: " + Join(" ", masters)),
                    "#\n",
                    "[mysqld]\n",
                    ADDRESS_PREFIX + Join(",", peers) + "\n",
                    "plugin_load_add=auth_socket.so\n",
                    "init_file=" + initFile + "\n"];
      if state.Some? && state.value.seqno != -1 {
        lines := lines + [START_PREFIX + Format(state.value) + "\n"];
      }
      if recoveryLog.Some? {
        lines := lines + ["wsrep_recover=on\n", "log_error=" + recoveryLog.value];
      }
      config := lines;
      script := ScriptLines(user);
      if promoting && |masters| == 0 {
        ForceGrastate();
      }
    }

    /**
     * `force_safe_to_bootstrap` as written: the first `safe_to_bootstrap`
     * line of the state file, if there is one, becomes `1` and spaces.
     */
    method ForceGrastate()
      modifies this
      ensures grastate == if old(grastate).Some? then Some(ForcedAsWritten(old(grastate).value)) else old(grastate)
      ensures state == old(state) && clusterUuid == old(clusterUuid) && config == old(config) && script == old(script)
    {
      if grastate.Some? {
        var contents := grastate.value;
        var f := new char[|contents|](i requires 0 <= i < |contents| => contents[i]);
        assert f[..] == contents;
        ForceSafeToBootstrapAsWritten(f);
        grastate := Some(f[..]);
      }
    }

    /** `service_start`; `recovery` is what `recover_grastate` returns or raises. */
    method ServiceStart(recovery: Result<State>) returns (r: Result<()>)
      modifies this
      ensures (r, state) == ServiceStartOutcome(old(state), clusterUuid, GrastateOf(grastateFile, grastate), recovery)
      ensures grastate == old(grastate) && clusterUuid == old(clusterUuid) && config == old(config)
    {
      var read := ReadGrastate(grastateFile, grastate);
      r := StartFrom(read, recovery);
    }

    /** The rest of `service_start`, once the state file has been read. */
    method StartFrom(read: Result<Option<State>>, recovery: Result<State>) returns (r: Result<()>)
      modifies this
      ensures (r, state) == ServiceStartOutcome(old(state), clusterUuid, read, recovery)
      ensures grastate == old(grastate) && clusterUuid == old(clusterUuid) && config == old(config)
    {
      if read.Err? {
        return Err(read.error);
      }
      var st: State;
      if read.value.Some? && read.value.value.seqno != -1 {
        st := read.value.value;
      } else if recovery.Err? {
        return Err(recovery.error);
      } else {
        st := recovery.value;
      }
      state := Some(st);
      if clusterUuid.Some? && st.uuid != ZERO_UUID && st.uuid != clusterUuid.value {
        return Err(Raised(GenericError, "UUID does not match cluster UUID"));
      }
      r := Ok(());
    }

    /**
     * `master_start`; `started` is the outcome of starting the service and
     * `after` the state file it leaves.
     */
    method MasterStart(started: Result<()>, after: Option<string>) returns (r: Result<()>)
      modifies this
      ensures (r, state, clusterUuid) ==
        MasterStartOutcome(old(state), old(clusterUuid), started, GrastateOf(grastateFile, after))
      ensures grastate == (if started.Ok? && (old(clusterUuid).None? || Matches(UuidOf(old(state)), old(clusterUuid).value))
                           then after else old(grastate))
      ensures config == old(config)
    {
      if clusterUuid.Some? && !(state.Some? && (state.value.uuid == ZERO_UUID || state.value.uuid == clusterUuid.value)) {
        return Err(Raised(GenericError, "UUID does not match cluster UUID"));
      }
      if started.Err? {
        return Err(started.error);
      }
      grastate := after;
      var read := ReadGrastate(grastateFile, grastate);
      r := Promoted(read);
    }

    /** The rest of `master_start`, once the promoted node's state file has been read. */
    method Promoted(read: Result<Option<State>>) returns (r: Result<()>)
      requires clusterUuid.None? || Matches(UuidOf(state), clusterUuid.value)
      modifies this
      ensures (r, state, clusterUuid) == MasterStartOutcome(old(state), old(clusterUuid), Ok(()), read)
      ensures grastate == old(grastate) && config == old(config)
    {
      if read.Err? {
        return Err(read.error);
      }
      if read.value.None? {
        return Err(Raised(GenericError, "Unable to determine state after promotion"));
      }
      var st := read.value.value;
      if !(state.Some? && (state.value.uuid == ZERO_UUID || state.value.uuid == st.uuid)) {
        return Err(Raised(GenericError, "UUID changed unexpectedly after promotion"));
      }
      state := Some(st);
      if clusterUuid.None? {
        clusterUuid := Some(st.uuid);
      }
      r := Ok(());
    }

    /**
     * `master_stop`; `stopped` is the outcome of stopping the service and
     * `after` the state file it leaves.
     */
    method MasterStop(stopped: Result<()>, after: Option<string>) returns (r: Result<()>)
      modifies this
      ensures (r, state) == MasterStopOutcome(old(state), stopped, GrastateOf(grastateFile, after))
      ensures grastate == (if stopped.Ok? then after else old(grastate))
      ensures clusterUuid == old(clusterUuid) && config == old(config)
    {
      if stopped.Err? {
        return Err(stopped.error);
      }
      grastate := after;
      var read := ReadGrastate(grastateFile, grastate);
      r := Stopped(read);
    }

    /** The rest of `master_stop`, once the state file has been read. */
    method Stopped(read: Result<Option<State>>) returns (r: Result<()>)
      modifies this
      ensures (r, state) == MasterStopOutcome(old(state), Ok(()), read)
      ensures grastate == old(grastate) && clusterUuid == old(clusterUuid) && config == old(config)
    {
      if read.Err? {
        return Err(read.error);
      }
      if read.value.Some? {
        state := read.value;
      }
      r := Ok(());
    }
  }
}
