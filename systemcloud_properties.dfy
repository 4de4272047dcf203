/**
 * What the actions of systemcloud/agent.py achieve: a plan completes
 * exactly when none of its commands fails, a completed plan leaves the
 * state its commands build, and from that the state each action leaves
 * behind when it succeeds, the order in which it issues its commands, the
 * scores it writes, and how its failure reaches the exit status.
 */
module SystemcloudProperties {
  import opened Wrappers
  import opened OcfExceptions
  import opened OcfEnviron
  import opened SystemcloudAgent
  import OcfAgent

  /** No step of the plan raises, and no command of it fails. */
  predicate Clean(failures: map<Step, string>, plan: seq<Step>) {
    forall i :: 0 <= i < |plan| ==> !plan[i].Raise? && plan[i] !in failures
  }

  /** The state a plan builds when every command completes. */
  function Replay(w: World, plan: seq<Step>): World
    decreases |plan|
  {
    if |plan| == 0 then w else Replay(Apply(w.(log := w.log + [plan[0]]), plan[0]), plan[1..])
  }

  /** A plan completes exactly when it is clean, and then it has issued all its commands and built their state. */
  lemma {:induction false} ExecuteOk(w: World, failures: map<Step, string>, plan: seq<Step>)
    ensures Execute(w, failures, plan).0.Ok? <==> Clean(failures, plan)
    ensures Clean(failures, plan) ==> Execute(w, failures, plan).1 == Replay(w, plan)
    ensures Clean(failures, plan) ==> Execute(w, failures, plan).1.log == w.log + plan
    decreases |plan|
  {
    if |plan| > 0 {
      var (o, w1) := Attempt(w, failures, plan[0]);
      ExecuteOk(w1, failures, plan[1..]);
      if o.Ok? {
        assert Clean(failures, plan) <==> Clean(failures, plan[1..]) by {
          if Clean(failures, plan[1..]) {
            forall i | 0 < i < |plan|
              ensures !plan[i].Raise? && plan[i] !in failures
            {
              assert plan[i] == plan[1..][i - 1];
            }
          }
        }
        assert w.log + plan == w.log + [plan[0]] + plan[1..];
      } else {
        assert !Clean(failures, plan);
      }
    }
  }

  /** The error `e` is the one the step `s` ends a plan with. */
  predicate FailsWith(failures: map<Step, string>, s: Step, e: Error) {
    if s.Raise? then e == s.error else s in failures && e == Raised(GenericError, failures[s])
  }

  /** A failed plan failed on one of its steps: an exception it raises or a command in `failures`. */
  lemma {:induction false} ExecuteErr(w: World, failures: map<Step, string>, plan: seq<Step>)
    requires Execute(w, failures, plan).0.Err?
    ensures exists i :: 0 <= i < |plan| && FailsWith(failures, plan[i], Execute(w, failures, plan).0.error)
    decreases |plan|
  {
    var (o, w1) := Attempt(w, failures, plan[0]);
    if o.Ok? {
      ExecuteErr(w1, failures, plan[1..]);
      var i :| 0 <= i < |plan[1..]| && FailsWith(failures, plan[1..][i], Execute(w1, failures, plan[1..]).0.error);
      assert plan[i + 1] == plan[1..][i];
    } else {
      assert FailsWith(failures, plan[0], o.error);
    }
  }

  /** Commands are only ever added to the log. */
  lemma {:induction false} LogExtends(w: World, failures: map<Step, string>, plan: seq<Step>)
    ensures w.log <= Execute(w, failures, plan).1.log
    decreases |plan|
  {
    if |plan| > 0 {
      var (o, w1) := Attempt(w, failures, plan[0]);
      if o.Ok? {
        LogExtends(w1, failures, plan[1..]);
      }
    }
  }

  /** The first command a plan issues is its first step. */
  lemma FirstCommand(w: World, failures: map<Step, string>, plan: seq<Step>)
    requires |plan| > 0 && !plan[0].Raise?
    ensures |Execute(w, failures, plan).1.log| > |w.log| && Execute(w, failures, plan).1.log[|w.log|] == plan[0]
  {
    var (o, w1) := Attempt(w, failures, plan[0]);
    if o.Ok? {
      LogExtends(w1, failures, plan[1..]);
      assert w1.log[|w.log|] == plan[0];
    }
  }

  /** Replaying two plans one after the other is replaying their concatenation. */
  lemma {:induction false} ReplayAppend(w: World, p: seq<Step>, q: seq<Step>)
    ensures Replay(w, p + q) == Replay(Replay(w, p), q)
    decreases |p|
  {
    if |p| == 0 {
      assert p + q == q;
    } else {
      assert (p + q)[0] == p[0] && (p + q)[1..] == p[1..] + q;
      ReplayAppend(Apply(w.(log := w.log + [p[0]]), p[0]), p[1..], q);
    }
  }

  /** Replaying one command. */
  lemma ReplayOne(w: World, s: Step)
    ensures Replay(w, [s]) == Apply(w.(log := w.log + [s]), s)
  {
    assert [s][1..] == [];
  }

  /** A plan that writes only scores leaves the service, its master and the `started` flags alone. */
  lemma {:induction false} ReplayScoresOnly(w: World, plan: seq<Step>)
    requires forall i :: 0 <= i < |plan| ==> plan[i].WriteScore?
    ensures Replay(w, plan).running == w.running && Replay(w, plan).master == w.master
    ensures Replay(w, plan).started == w.started
    decreases |plan|
  {
    if |plan| > 0 {
      ReplayScoresOnly(Apply(w.(log := w.log + [plan[0]]), plan[0]), plan[1..]);
    }
  }

  /** A plan that neither writes nor clears the score of `n` leaves that score alone. */
  lemma {:induction false} ReplayScoreUntouched(w: World, plan: seq<Step>, n: string)
    requires forall i :: 0 <= i < |plan| ==> !((plan[i].WriteScore? || plan[i].ClearScore?) && plan[i].node == n)
    ensures (n in Replay(w, plan).scores <==> n in w.scores)
    ensures n in w.scores ==> Replay(w, plan).scores[n] == w.scores[n]
    decreases |plan|
  {
    if |plan| > 0 {
      ReplayScoreUntouched(Apply(w.(log := w.log + [plan[0]]), plan[0]), plan[1..], n);
    }
  }

  /** `trigger_promote_all` gives every other peer the default score and leaves the own score and every other node alone. */
  lemma {:induction false} PromoteAllScores(w: World, peers: seq<string>, node: string)
    ensures forall n :: n in peers && n != node ==> n in Replay(w, PromoteAllPlan(peers, node)).scores &&
                                                    Replay(w, PromoteAllPlan(peers, node)).scores[n] == DEFAULT_SCORE
    ensures forall n :: n !in peers || n == node ==>
      (n in Replay(w, PromoteAllPlan(peers, node)).scores <==> n in w.scores) &&
      (n in w.scores ==> Replay(w, PromoteAllPlan(peers, node)).scores[n] == w.scores[n])
    decreases |peers|
  {
    var plan := PromoteAllPlan(peers, node);
    forall n | n !in peers || n == node
      ensures (n in Replay(w, plan).scores <==> n in w.scores) && (n in w.scores ==> Replay(w, plan).scores[n] == w.scores[n])
    {
      assert forall s :: s in plan ==> !((s.WriteScore? || s.ClearScore?) && s.node == n);
      ReplayScoreUntouched(w, plan, n);
    }
    if |peers| > 0 {
      var head := if peers[0] != node then [WriteScore(peers[0], DEFAULT_SCORE)] else [];
      var w1 := Replay(w, head);
      ReplayAppend(w, head, PromoteAllPlan(peers[1..], node));
      PromoteAllScores(w1, peers[1..], node);
      forall n | n in peers && n != node
        ensures n in Replay(w, plan).scores && Replay(w, plan).scores[n] == DEFAULT_SCORE
      {
        if n !in peers[1..] {
          assert n == peers[0];
          ReplayOne(w, WriteScore(n, DEFAULT_SCORE));
        }
      }
    }
  }

  /** Replaying two commands. */
  lemma ReplayPair(w: World, a: Step, b: Step)
    ensures Replay(w, [a, b]) == Replay(Replay(w, [a]), [b])
  {
    ReplayAppend(w, [a], [b]);
    assert [a] + [b] == [a, b];
  }

  /** Reconfiguring and then starting a command's unit, as the start plans end. */
  lemma ReplayReconfigureThen(w: World, s: Step)
    ensures Replay(w, [Reconfigure, s]) == Apply(w.(log := w.log + [Reconfigure, s]), s)
  {
    ReplayPair(w, Reconfigure, s);
    ReplayOne(w, Reconfigure);
    ReplayOne(Replay(w, [Reconfigure]), s);
  }

  /** `action_start` of the single-state agent leaves the service running and nothing else changed. */
  lemma ReplayResourceStart(w: World)
    ensures Replay(w, ResourceStartPlan(w.running)).running
    ensures Replay(w, ResourceStartPlan(w.running)).master == w.master
    ensures Replay(w, ResourceStartPlan(w.running)).scores == w.scores
    ensures Replay(w, ResourceStartPlan(w.running)).started == w.started
  {
    var pre := if w.running then [StopService] else [];
    ReplayAppend(w, pre, [Reconfigure, StartService]);
    if w.running {
      ReplayOne(w, StopService);
    }
    ReplayReconfigureThen(Replay(w, pre), StartService);
  }

  /** `action_start` of the multi-state agent leaves a running slave and nothing else changed. */
  lemma ReplayMultiStart(w: World)
    ensures Replay(w, MultiStartPlan(w.running, w.master)).running
    ensures !Replay(w, MultiStartPlan(w.running, w.master)).master
    ensures Replay(w, MultiStartPlan(w.running, w.master)).scores == w.scores
    ensures Replay(w, MultiStartPlan(w.running, w.master)).started == w.started
  {
    var pre := if w.master then [StopMaster] else [];
    ReplayAppend(w, pre, ResourceStartPlan(w.running));
    if w.master {
      ReplayOne(w, StopMaster);
    }
    ReplayResourceStart(Replay(w, pre));
  }

  /** Commands on the attributes of the nodes. */
  predicate AttributeStep(s: Step) {
    s.WriteScore? || s.ClearScore? || s.MarkStarted? || s.ClearStarted? || s.Raise?
  }

  /** A plan of attribute commands leaves the service and its master alone. */
  lemma {:induction false} ReplayAttributesOnly(w: World, plan: seq<Step>)
    requires forall i :: 0 <= i < |plan| ==> AttributeStep(plan[i])
    ensures Replay(w, plan).running == w.running && Replay(w, plan).master == w.master
    decreases |plan|
  {
    if |plan| > 0 {
      ReplayAttributesOnly(Apply(w.(log := w.log + [plan[0]]), plan[0]), plan[1..]);
    }
  }

  /** The master scores after joining: this node's set when a master runs, else the elected node's, if any. */
  function JoinedScores(masters: seq<string>, node: string, election: Result<Option<string>>, before: map<string, int>): map<string, int> {
    if |masters| > 0 then before[node := DEFAULT_SCORE]
    else if election.Ok? && election.value.Some? then before[election.value.value := DEFAULT_SCORE]
    else before
  }

  /** A plan that writes a single score. */
  lemma ReplayWrite(w: World, n: string)
    ensures Replay(w, [WriteScore(n, DEFAULT_SCORE)]).scores == w.scores[n := DEFAULT_SCORE]
    ensures Replay(w, [WriteScore(n, DEFAULT_SCORE)]).started == w.started
    ensures Replay(w, [WriteScore(n, DEFAULT_SCORE)]).running == w.running
    ensures Replay(w, [WriteScore(n, DEFAULT_SCORE)]).master == w.master
  {
    ReplayOne(w, WriteScore(n, DEFAULT_SCORE));
  }

  /** Joining writes the default score to this node when a master runs, else to the elected node, and nothing else. */
  lemma ReplayJoin(w: World, environ: Environ, node: string, election: Result<Option<string>>)
    requires Current(environ, Unames, MASTER).Ok?
    ensures Replay(w, JoinPlan(environ, node, election)).started == w.started
    ensures Replay(w, JoinPlan(environ, node, election)).running == w.running
    ensures Replay(w, JoinPlan(environ, node, election)).master == w.master
    ensures Replay(w, JoinPlan(environ, node, election)).scores ==
      JoinedScores(Current(environ, Unames, MASTER).value, node, election, w.scores)
  {
    var masters := Current(environ, Unames, MASTER).value;
    assert JoinPlan(environ, node, election) ==
      if |masters| > 0 then [WriteScore(node, DEFAULT_SCORE)] else BootstrapPlan(election);
    ReplayJoinOf(w, masters, node, election);
  }

  /** `ReplayJoin` once the master list has been read. */
  lemma ReplayJoinOf(w: World, masters: seq<string>, node: string, election: Result<Option<string>>)
    ensures var p := if |masters| > 0 then [WriteScore(node, DEFAULT_SCORE)] else BootstrapPlan(election);
      Replay(w, p).started == w.started && Replay(w, p).running == w.running && Replay(w, p).master == w.master &&
      Replay(w, p).scores == JoinedScores(masters, node, election, w.scores)
  {
    if |masters| > 0 {
      ReplayWrite(w, node);
    } else {
      match election
      case Err(e) => ReplayOne(w, Raise(e));
      case Ok(None) =>
      case Ok(Some(b)) => ReplayWrite(w, b);
    }
  }

  /**
   * What the bootstrapping agent's start leaves once the service runs:
   * marked as started, its own score cleared before joining, and the
   * scores the join writes.
   */
  lemma ReplayEnlist(w: World, environ: Environ, node: string, election: Result<Option<string>>)
    requires Current(environ, Unames, MASTER).Ok?
    ensures Replay(w, EnlistPlan(environ, node, election)).running == w.running
    ensures Replay(w, EnlistPlan(environ, node, election)).master == w.master
    ensures Started(Replay(w, EnlistPlan(environ, node, election)).started, node)
    ensures Replay(w, EnlistPlan(environ, node, election)).scores ==
      JoinedScores(Current(environ, Unames, MASTER).value, node, election, w.scores - {node})
  {
    var join := JoinPlan(environ, node, election);
    var w1 := Replay(w, [ClearScore(node)]);
    var w2 := Replay(w1, join);
    ReplayAppend(w, [ClearScore(node)], join);
    ReplayAppend(w, [ClearScore(node)] + join, [MarkStarted(node)]);
    ReplayClear(w, node);
    ReplayJoin(w1, environ, node, election);
    ReplayMark(w2, node);
  }

  /** Clearing a score. */
  lemma ReplayClear(w: World, n: string)
    ensures Replay(w, [ClearScore(n)]).scores == w.scores - {n}
    ensures Replay(w, [ClearScore(n)]).running == w.running && Replay(w, [ClearScore(n)]).master == w.master
  {
    ReplayOne(w, ClearScore(n));
  }

  /** Marking a node as started. */
  lemma ReplayMark(w: World, n: string)
    ensures Replay(w, [MarkStarted(n)]).scores == w.scores
    ensures Replay(w, [MarkStarted(n)]).started == w.started[n := true]
    ensures Replay(w, [MarkStarted(n)]).running == w.running && Replay(w, [MarkStarted(n)]).master == w.master
  {
    ReplayOne(w, MarkStarted(n));
  }

  /** `action_stop`, once validated, leaves the service stopped and nothing else changed. */
  lemma ReplayStop(w: World, v: Result<Option<int>>)
    requires v.Ok?
    ensures !Replay(w, ResourceStopPlan(v)).running && Replay(w, ResourceStopPlan(v)).master == w.master
    ensures Replay(w, ResourceStopPlan(v)).scores == w.scores && Replay(w, ResourceStopPlan(v)).started == w.started
  {
    assert ResourceStopPlan(v) == [Reconfigure, StopService];
    ReplayReconfigureThen(w, StopService);
  }

  /** The bootstrapping agent's stop also forgets that the node was started. */
  lemma ReplayBootStop(w: World, v: Result<Option<int>>, node: string)
    requires v.Ok?
    ensures !Replay(w, BootStopPlan(v, node)).running && !Started(Replay(w, BootStopPlan(v, node)).started, node)
    ensures Replay(w, BootStopPlan(v, node)).master == w.master && Replay(w, BootStopPlan(v, node)).scores == w.scores
  {
    ReplayAppend(w, ResourceStopPlan(v), [ClearStarted(node)]);
    ReplayStop(w, v);
    ReplayOne(Replay(w, ResourceStopPlan(v)), ClearStarted(node));
  }

  /** `action_promote` of the multi-state agent leaves the master running and nothing else changed. */
  lemma ReplayPromote(w: World)
    ensures Replay(w, MultiPromotePlan(w.master)).master && Replay(w, MultiPromotePlan(w.master)).running == w.running
    ensures Replay(w, MultiPromotePlan(w.master)).scores == w.scores
    ensures Replay(w, MultiPromotePlan(w.master)).started == w.started
  {
    var pre := if w.master then [StopMaster] else [];
    ReplayAppend(w, pre, [Reconfigure, StartMaster]);
    if w.master {
      ReplayOne(w, StopMaster);
    }
    ReplayReconfigureThen(Replay(w, pre), StartMaster);
  }

  /** `action_demote` leaves the master stopped and nothing else changed. */
  lemma ReplayDemote(w: World)
    ensures !Replay(w, DEMOTE_PLAN).master && Replay(w, DEMOTE_PLAN).running == w.running
    ensures Replay(w, DEMOTE_PLAN).scores == w.scores && Replay(w, DEMOTE_PLAN).started == w.started
  {
    ReplayReconfigureThen(w, StopMaster);
  }

  /**
   * The bootstrapping agent's promote: the master runs, and the bootstrap
   * node gives every other peer the default score; no other score changes.
   */
  lemma ReplayBootPromote(w: World, environ: Environ, node: string, peers: seq<string>)
    requires IsBootstrap(environ, node).Ok?
    ensures var w1 := Replay(w, BootPromotePlan(w.master, environ, node, peers));
      && w1.master && w1.running == w.running && w1.started == w.started
      && (IsBootstrap(environ, node) == Ok(false) ==> w1.scores == w.scores)
      && (IsBootstrap(environ, node) == Ok(true) ==>
            (forall n :: n in peers && n != node ==> n in w1.scores && w1.scores[n] == DEFAULT_SCORE) &&
            (forall n :: n !in peers || n == node ==> (n in w1.scores <==> n in w.scores) &&
                                                      (n in w.scores ==> w1.scores[n] == w.scores[n])))
  {
    var w0 := Replay(w, MultiPromotePlan(w.master));
    ReplayPromote(w);
    var rest := if IsBootstrap(environ, node).value then PromoteAllPlan(peers, node) else [];
    assert BootPromotePlan(w.master, environ, node, peers) == MultiPromotePlan(w.master) + rest;
    ReplayAppend(w, MultiPromotePlan(w.master), rest);
    forall i | 0 <= i < |rest|
      ensures rest[i].WriteScore?
    {
      assert rest[i] in PromoteAllPlan(peers, node);
    }
    ReplayScoresOnly(w0, rest);
    if IsBootstrap(environ, node).value {
      PromoteAllScores(w0, peers, node);
    }
  }

  /** A plan stops at the first step that fails: nothing after it is issued. */
  lemma ExecuteStopsAt(w: World, failures: map<Step, string>, p: seq<Step>, s: Step, q: seq<Step>)
    requires Clean(failures, p) && !s.Raise? && s in failures
    ensures Execute(w, failures, p + [s] + q) ==
      (Err(Raised(GenericError, failures[s])), Replay(w, p).(log := w.log + p + [s]))
  {
    ExecuteAppend(w, failures, p, [s] + q);
    assert p + [s] + q == p + ([s] + q);
    ExecuteOk(w, failures, p);
    assert ([s] + q)[0] == s;
  }

  /** When the running masters cannot be read, the bootstrapping agent's start raises the error. */
  lemma JoinUnreadable(w: World, failures: map<Step, string>, environ: Environ, node: string, election: Result<Option<string>>)
    ensures Current(environ, Unames, MASTER).Err? ==> !Clean(failures, BootStartPlan(w.running, w.master, environ, node, election))
  {
    if Current(environ, Unames, MASTER).Err? {
      var start := MultiStartPlan(w.running, w.master);
      assert BootStartPlan(w.running, w.master, environ, node, election)[|start| + 1] ==
        Raise(Current(environ, Unames, MASTER).error);
    }
  }

  /** When it cannot tell whether it is the bootstrap node, the bootstrapping agent's promote raises the error. */
  lemma PromoteUndecided(w: World, failures: map<Step, string>, environ: Environ, node: string, peers: seq<string>)
    ensures IsBootstrap(environ, node).Err? ==> !Clean(failures, BootPromotePlan(w.master, environ, node, peers))
  {
    if IsBootstrap(environ, node).Err? {
      assert BootPromotePlan(w.master, environ, node, peers)[|MultiPromotePlan(w.master)|] ==
        Raise(IsBootstrap(environ, node).error);
    }
  }

  /** The bootstrapping agent's start completes only when the running masters could be read, and then leaves a started, running slave. */
  lemma BootStartReplay(w: World, failures: map<Step, string>, environ: Environ, node: string, election: Result<Option<string>>)
    requires Clean(failures, BootStartPlan(w.running, w.master, environ, node, election))
    ensures Current(environ, Unames, MASTER).Ok?
    ensures var w1 := Replay(w, BootStartPlan(w.running, w.master, environ, node, election));
      && w1.running && !w1.master && Started(w1.started, node)
      && w1.scores == JoinedScores(Current(environ, Unames, MASTER).value, node, election, w.scores - {node})
  {
    var start := MultiStartPlan(w.running, w.master);
    var plan := BootStartPlan(w.running, w.master, environ, node, election);
    JoinUnreadable(w, failures, environ, node, election);
    ReplayAppend(w, start, EnlistPlan(environ, node, election));
    ReplayMultiStart(w);
    ReplayEnlist(Replay(w, start), environ, node, election);
  }

  /** What the start action leaves when it succeeds: a running slave, and for the bootstrapping agent a started node with the scores the join writes. */
  lemma StartLeavesSlave(kind: Kind, w: World, failures: map<Step, string>, environ: Environ, node: string,
                         peers: seq<string>, election: Result<Option<string>>, metadata: Option<string>)
    ensures var (r, w1) := ActionOutcome(kind, w, failures, environ, node, peers, election, metadata, OcfAgent.Start);
      r.Ok? ==>
        && w1.running && (kind != SingleState ==> !w1.master)
        && (kind != Bootstrapping ==> w1.scores == w.scores && w1.started == w.started)
        && (kind == Bootstrapping ==>
              Current(environ, Unames, MASTER).Ok? && Started(w1.started, node) &&
              w1.scores == JoinedScores(Current(environ, Unames, MASTER).value, node, election, w.scores - {node}))
  {
    var plan := if kind == SingleState then ResourceStartPlan(w.running)
      else if kind == MultiState then MultiStartPlan(w.running, w.master)
      else BootStartPlan(w.running, w.master, environ, node, election);
    ExecuteOk(w, failures, plan);
    if Clean(failures, plan) {
      if kind == SingleState {
        ReplayResourceStart(w);
      } else if kind == MultiState {
        ReplayMultiStart(w);
      } else {
        BootStartReplay(w, failures, environ, node, election);
      }
    }
  }

  /** Once validated, a monitor right after a successful start reports a running slave. */
  lemma StartThenMonitor(kind: Kind, w: World, failures: map<Step, string>, environ: Environ, node: string,
                         peers: seq<string>, election: Result<Option<string>>, metadata: Option<string>)
    requires Validation(kind, environ).Ok?
    ensures var (r, w1) := ActionOutcome(kind, w, failures, environ, node, peers, election, metadata, OcfAgent.Start);
      r.Ok? ==> ActionOutcome(kind, w1, failures, environ, node, peers, election, metadata, OcfAgent.Monitor).0 == Ok(Some(SUCCESS))
  {
    StartLeavesSlave(kind, w, failures, environ, node, peers, election, metadata);
  }

  /** A successful stop leaves the service stopped, and a monitor right after it reports it not running and changes nothing. */
  lemma StopThenMonitor(kind: Kind, w: World, failures: map<Step, string>, environ: Environ, node: string,
                        peers: seq<string>, election: Result<Option<string>>, metadata: Option<string>)
    ensures var (r, w1) := ActionOutcome(kind, w, failures, environ, node, peers, election, metadata, OcfAgent.Stop);
      r.Ok? ==>
        && !w1.running && w1.master == w.master && w1.scores == w.scores
        && ActionOutcome(kind, w1, failures, environ, node, peers, election, metadata, OcfAgent.Monitor) ==
             (Ok(Some(NOT_RUNNING)), w1)
  {
    var v := Validation(kind, environ);
    if kind == Bootstrapping {
      var out := Execute(w, failures, BootStopPlan(v, node));
      assert ActionOutcome(kind, w, failures, environ, node, peers, election, metadata, OcfAgent.Stop) ==
        Finish(out, Some(SUCCESS));
      BootStopOutcome(w, failures, v, node);
      if out.0.Ok? {
        assert ActionOutcome(kind, out.1, failures, environ, node, peers, election, metadata, OcfAgent.Monitor) ==
          BootMonitorOutcome(out.1, failures, v, node, election);
      }
    } else {
      var out := Execute(w, failures, ResourceStopPlan(v));
      assert ActionOutcome(kind, w, failures, environ, node, peers, election, metadata, OcfAgent.Stop) ==
        Finish(out, Some(SUCCESS));
      ResourceStopOutcome(w, failures, v);
      if out.0.Ok? {
        assert ActionOutcome(kind, out.1, failures, environ, node, peers, election, metadata, OcfAgent.Monitor) ==
          (MonitorStatus(kind, environ, out.1), out.1);
      }
    }
  }

  /** The single-state and multi-state agents' stop completes only once validated, and leaves the service stopped and nothing else changed. */
  lemma ResourceStopOutcome(w: World, failures: map<Step, string>, v: Result<Option<int>>)
    ensures var (o, w1) := Execute(w, failures, ResourceStopPlan(v));
      o.Ok? ==> v.Ok? && !w1.running && w1.master == w.master && w1.scores == w.scores && w1.started == w.started
  {
    ExecuteOk(w, failures, ResourceStopPlan(v));
    if v.Err? {
      assert ResourceStopPlan(v)[0] == Raise(v.error);
    } else {
      ReplayStop(w, v);
    }
  }

  /** The bootstrapping agent's stop completes only once validated, and leaves the service stopped, the node no longer started and nothing else changed. */
  lemma BootStopOutcome(w: World, failures: map<Step, string>, v: Result<Option<int>>, node: string)
    ensures var (o, w1) := Execute(w, failures, BootStopPlan(v, node));
      o.Ok? ==> v.Ok? && !w1.running && !Started(w1.started, node) && w1.master == w.master && w1.scores == w.scores
  {
    ExecuteOk(w, failures, BootStopPlan(v, node));
    if v.Err? {
      assert BootStopPlan(v, node)[0] == Raise(v.error);
    } else {
      ReplayBootStop(w, v, node);
    }
  }

  /**
   * The bootstrapping agent's promote completes only when it could tell
   * whether it is the bootstrap node, and then leaves the master running,
   * every other peer promoted by the bootstrap node, and no other score changed.
   */
  lemma BootPromoteOutcome(w: World, failures: map<Step, string>, environ: Environ, node: string, peers: seq<string>)
    ensures var (o, w1) := Execute(w, failures, BootPromotePlan(w.master, environ, node, peers));
      o.Ok? ==>
        && IsBootstrap(environ, node).Ok?
        && w1.master && w1.running == w.running && w1.started == w.started
        && (IsBootstrap(environ, node) == Ok(false) ==> w1.scores == w.scores)
        && (IsBootstrap(environ, node) == Ok(true) ==>
              (forall n :: n in peers && n != node ==> n in w1.scores && w1.scores[n] == DEFAULT_SCORE) &&
              (forall n :: n !in peers || n == node ==> (n in w1.scores <==> n in w.scores) &&
                                                        (n in w.scores ==> w1.scores[n] == w.scores[n])))
  {
    var plan := BootPromotePlan(w.master, environ, node, peers);
    ExecuteOk(w, failures, plan);
    PromoteUndecided(w, failures, environ, node, peers);
    if Clean(failures, plan) {
      ReplayBootPromote(w, environ, node, peers);
    }
  }

  /** The multi-state agent's promote leaves the master running and nothing else changed. */
  lemma MultiPromoteOutcome(w: World, failures: map<Step, string>)
    ensures var (o, w1) := Execute(w, failures, MultiPromotePlan(w.master));
      o.Ok? ==> w1.master && w1.running == w.running && w1.started == w.started && w1.scores == w.scores
  {
    ExecuteOk(w, failures, MultiPromotePlan(w.master));
    ReplayPromote(w);
  }

  /**
   * Promote: the single-state agent refuses it as unimplemented and changes
   * nothing; the others leave the master running, and a validated monitor of
   * a running (and, when bootstrapping, started) node then reports a master.
   */
  lemma PromoteThenMonitor(kind: Kind, w: World, failures: map<Step, string>, environ: Environ, node: string,
                           peers: seq<string>, election: Result<Option<string>>, metadata: Option<string>)
    ensures kind == SingleState ==>
      ActionOutcome(kind, w, failures, environ, node, peers, election, metadata, OcfAgent.Promote) ==
        (Err(Raised(UnimplementedError, "No promote method")), w)
    ensures var (r, w1) := ActionOutcome(kind, w, failures, environ, node, peers, election, metadata, OcfAgent.Promote);
      r.Ok? ==>
        && w1.master && w1.running == w.running && w1.started == w.started
        && (Validation(kind, environ).Ok? && w.running && (kind == Bootstrapping ==> Started(w.started, node)) ==>
              ActionOutcome(kind, w1, failures, environ, node, peers, election, metadata, OcfAgent.Monitor).0 ==
                Ok(Some(RUNNING_MASTER)))
  {
    if kind == MultiState {
      MultiPromotedMonitor(kind, w, failures, environ, node, peers, election, metadata);
    } else if kind == Bootstrapping {
      BootPromotedMonitor(kind, w, failures, environ, node, peers, election, metadata);
    }
  }

  /** The multi-state agent's promote, then monitor. */
  lemma MultiPromotedMonitor(kind: Kind, w: World, failures: map<Step, string>, environ: Environ, node: string,
                        peers: seq<string>, election: Result<Option<string>>, metadata: Option<string>)
    requires kind == MultiState
    ensures var (r, w1) := ActionOutcome(kind, w, failures, environ, node, peers, election, metadata, OcfAgent.Promote);
      r.Ok? ==>
        && w1.master && w1.running == w.running && w1.started == w.started
        && (Validation(kind, environ).Ok? && w.running && (kind == Bootstrapping ==> Started(w.started, node)) ==>
              ActionOutcome(kind, w1, failures, environ, node, peers, election, metadata, OcfAgent.Monitor).0 ==
                Ok(Some(RUNNING_MASTER)))
  {
    MultiPromoteOutcome(w, failures);
  }

  /** The bootstrapping agent's promote, then monitor. */
  lemma BootPromotedMonitor(kind: Kind, w: World, failures: map<Step, string>, environ: Environ, node: string,
                        peers: seq<string>, election: Result<Option<string>>, metadata: Option<string>)
    requires kind == Bootstrapping
    ensures var (r, w1) := ActionOutcome(kind, w, failures, environ, node, peers, election, metadata, OcfAgent.Promote);
      r.Ok? ==>
        && w1.master && w1.running == w.running && w1.started == w.started
        && (Validation(kind, environ).Ok? && w.running && (kind == Bootstrapping ==> Started(w.started, node)) ==>
              ActionOutcome(kind, w1, failures, environ, node, peers, election, metadata, OcfAgent.Monitor).0 ==
                Ok(Some(RUNNING_MASTER)))
  {
    var out := Execute(w, failures, BootPromotePlan(w.master, environ, node, peers));
    BootPromoteOutcome(w, failures, environ, node, peers);
    assert ActionOutcome(kind, w, failures, environ, node, peers, election, metadata, OcfAgent.Promote) ==
      Finish(out, Some(SUCCESS));
    var v := Validation(kind, environ);
    if out.0.Ok? && v.Ok? && w.running && Started(w.started, node) {
      MasterMonitor(out.1, failures, v, node, election);
    }
  }

  /** The bootstrapping agent's monitor of a started, running master reports a master. */
  lemma MasterMonitor(w: World, failures: map<Step, string>, v: Result<Option<int>>, node: string,
                      election: Result<Option<string>>)
    requires v.Ok? && w.running && w.master && Started(w.started, node)
    ensures BootMonitorOutcome(w, failures, v, node, election).0 == Ok(Some(RUNNING_MASTER))
  {
  }

  /**
   * Demote: refused by the single-state agent; the others leave the master
   * stopped, and a validated monitor of a running (and, when bootstrapping,
   * started) node then reports a slave.
   */
  lemma DemoteThenMonitor(kind: Kind, w: World, failures: map<Step, string>, environ: Environ, node: string,
                          peers: seq<string>, election: Result<Option<string>>, metadata: Option<string>)
    ensures kind == SingleState ==>
      ActionOutcome(kind, w, failures, environ, node, peers, election, metadata, OcfAgent.Demote) ==
        (Err(Raised(UnimplementedError, "No demote method")), w)
    ensures var (r, w1) := ActionOutcome(kind, w, failures, environ, node, peers, election, metadata, OcfAgent.Demote);
      r.Ok? ==>
        && !w1.master && w1.running == w.running && w1.started == w.started && w1.scores == w.scores
        && (Validation(kind, environ).Ok? && w.running && (kind == Bootstrapping ==> Started(w.started, node)) ==>
              ActionOutcome(kind, w1, failures, environ, node, peers, election, metadata, OcfAgent.Monitor).0 ==
                Ok(Some(SUCCESS)))
  {
    if kind != SingleState {
      ExecuteOk(w, failures, DEMOTE_PLAN);
      ReplayDemote(w);
    }
  }

  /** The commands the start action issues first: an anomalously running master is stopped, then an anomalously running service, before anything is reconfigured. */
  lemma StartStopsAnomalyFirst(kind: Kind, w: World, failures: map<Step, string>, environ: Environ, node: string,
                               peers: seq<string>, election: Result<Option<string>>, metadata: Option<string>)
    ensures var w1 := ActionOutcome(kind, w, failures, environ, node, peers, election, metadata, OcfAgent.Start).1;
      && |w1.log| > |w.log|
      && (kind != SingleState && w.master ==> w1.log[|w.log|] == StopMaster)
      && ((kind == SingleState || !w.master) && w.running ==> w1.log[|w.log|] == StopService)
      && ((kind == SingleState || !w.master) && !w.running ==> w1.log[|w.log|] == Reconfigure)
  {
    var plan := if kind == SingleState then ResourceStartPlan(w.running)
      else if kind == MultiState then MultiStartPlan(w.running, w.master)
      else BootStartPlan(w.running, w.master, environ, node, election);
    var first := if kind != SingleState && w.master then StopMaster else if w.running then StopService else Reconfigure;
    assert plan[0] == first;
    FirstCommand(w, failures, plan);
  }

  /** Trying to promote the elected node writes its score, or nothing when the attempt fails or nobody is elected. */
  lemma BootstrapEffects(w: World, failures: map<Step, string>, election: Result<Option<string>>)
    ensures var w1 := Execute(w, failures, BootstrapPlan(election)).1;
      && w1.running == w.running && w1.master == w.master && w1.started == w.started
      && (w1.scores == w.scores || (election.Ok? && election.value.Some? &&
                                    w1.scores == w.scores[election.value.value := DEFAULT_SCORE]))
    ensures var w1 := Execute(w, failures, BootstrapPlan(election)).1;
      if election.Ok? && election.value.Some? then
        var step := WriteScore(election.value.value, DEFAULT_SCORE);
        && w1.log == w.log + [step]
        && w1.scores == if step in failures then w.scores else w.scores[election.value.value := DEFAULT_SCORE]
      else w1 == w
  {
    if election.Ok? && election.value.Some? {
      assert BootstrapPlan(election) == [WriteScore(election.value.value, DEFAULT_SCORE)];
      assert BootstrapPlan(election)[1..] == [];
    }
  }

  /**
   * The bootstrapping agent's monitor: the status it reports does not depend
   * on the election, and the only thing it may change besides the log is the
   * elected node's score, while this node is a started slave without a score.
   */
  lemma BootMonitorEffects(w: World, failures: map<Step, string>, v: Result<Option<int>>, node: string,
                           election: Result<Option<string>>, other: Result<Option<string>>)
    ensures BootMonitorOutcome(w, failures, v, node, election).0 == BootMonitorOutcome(w, failures, v, node, other).0
    ensures var w1 := BootMonitorOutcome(w, failures, v, node, election).1;
      && w1.running == w.running && w1.master == w.master && w1.started == w.started
      && (w1.scores == w.scores ||
          (v.Ok? && Started(w.started, node) && w.running && !w.master && !HasScore(w.scores, node) &&
           election.Ok? && election.value.Some? && w1.scores == w.scores[election.value.value := DEFAULT_SCORE]))
  {
    BootstrapEffects(w, failures, election);
  }

  /**
   * A started, running slave without a score re-runs the election on every
   * monitor, and the elected node's score is written whenever that write
   * can succeed; the status reported stays SUCCESS either way.
   */
  lemma BootMonitorPromotesElected(w: World, failures: map<Step, string>, v: Result<Option<int>>, node: string, b: string)
    requires v.Ok? && Started(w.started, node) && w.running && !w.master && !HasScore(w.scores, node)
    ensures var step := WriteScore(b, DEFAULT_SCORE);
      BootMonitorOutcome(w, failures, v, node, Ok(Some(b))) ==
        (Ok(Some(SUCCESS)),
         if step in failures then w.(log := w.log + [step])
         else w.(scores := w.scores[b := DEFAULT_SCORE], log := w.log + [step]))
  {
    var step := WriteScore(b, DEFAULT_SCORE);
    assert BootstrapPlan(Ok(Some(b))) == [step];
    assert [step][1..] == [];
    var w1 := Attempt(w, failures, step).1;
    assert Execute(w, failures, [step]).1 == w1;
    assert MultiStatus(w.running, w.master) == SUCCESS;
  }

  /** Notify completes exactly when the notification and its node list are set and reconfiguring succeeds, and it changes nothing else. */
  lemma NotifyOutcome(kind: Kind, w: World, failures: map<Step, string>, environ: Environ, node: string,
                      peers: seq<string>, election: Result<Option<string>>, metadata: Option<string>)
    ensures var (r, w1) := ActionOutcome(kind, w, failures, environ, node, peers, election, metadata, OcfAgent.Notify);
      && (r.Ok? <==> NotifyCheck(environ).Ok? && Reconfigure !in failures)
      && (r.Ok? ==> r == Ok(Some(SUCCESS)) && w1 == w.(log := w.log + [Reconfigure]))
  {
    var plan := NotifyPlan(environ);
    ExecuteOk(w, failures, plan);
    if NotifyCheck(environ).Ok? {
      assert plan == [Reconfigure];
      ReplayOne(w, Reconfigure);
    } else {
      assert plan[0].Raise?;
    }
  }

  /** A failing command ends the action: when stopping an anomalously running master fails, the start action issues nothing more. */
  lemma FailedStopOutcome(kind: Kind, w: World, failures: map<Step, string>, environ: Environ, node: string,
                          peers: seq<string>, election: Result<Option<string>>, metadata: Option<string>)
    requires kind != SingleState && w.master && StopMaster in failures
    ensures ActionOutcome(kind, w, failures, environ, node, peers, election, metadata, OcfAgent.Start) ==
      (Err(Raised(GenericError, failures[StopMaster])), w.(log := w.log + [StopMaster]))
  {
    var rest := if kind == MultiState then ResourceStartPlan(w.running)
      else ResourceStartPlan(w.running) + EnlistPlan(environ, node, election);
    var plan := if kind == MultiState then MultiStartPlan(w.running, w.master)
      else BootStartPlan(w.running, w.master, environ, node, election);
    assert plan == [] + [StopMaster] + rest;
    ExecuteStopsAt(w, failures, [], StopMaster, rest);
  }

  /** ... and `dispatch` then exits with a generic error whose reason is the failed command's output. */
  lemma FailedStopExits(kind: Kind, w: World, failures: map<Step, string>, environ: Environ, node: string,
                        peers: seq<string>, election: Result<Option<string>>, metadata: Option<string>)
    requires kind != SingleState && w.master && StopMaster in failures
    ensures OcfAgent.DispatchExit(["start"], a => ActionOutcome(kind, w, failures, environ, node, peers, election, metadata, a).0) ==
      Exit(ERR_GENERIC, Some(ReasonLine(failures[StopMaster])))
  {
    FailedStopOutcome(kind, w, failures, environ, node, peers, election, metadata);
    OcfAgent.ParseActionWord(OcfAgent.Start);
  }
}
