/**
 * The actions of the systemd-service resource agents (systemcloud/agent.py):
 * the single-state agent, the multi-state (master/slave) agent and the
 * bootstrapping agent that elects one node to start a new cluster.
 *
 * An action is a sequence of commands: reconfigure, start or stop the
 * service or its master, and write or delete the attributes `score`
 * (the master score of a node) and `started` (whether a node went through
 * the normal start).  A command either completes or fails with a
 * GenericError, and a failure ends the action; an exception raised by the
 * agent's own logic (validation, an unset notification list, the
 * election) ends it the same way.  Each action method is proved to issue
 * exactly the commands of its plan, a function of the state it started
 * from, and the properties of the actions are proved about the plans.
 */
module SystemcloudAgent {
  import opened Wrappers
  import opened OcfExceptions
  import opened OcfEnviron
  import OcfAgent

  /** The score `trigger_promote` writes. */
  const DEFAULT_SCORE: int := 100

  /** One command, or an exception raised between commands. */
  datatype Step =
    | Reconfigure
    | StartService
    | StopService
    | StartMaster
    | StopMaster
    | WriteScore(node: string, score: int)
    | ClearScore(node: string)
    | MarkStarted(node: string)
    | ClearStarted(node: string)
    | Raise(error: Error)

  /**
   * What the actions change: whether the service and its master run, the
   * master scores and `started` flags of the nodes, and the commands issued so far.
   */
  datatype World = World(running: bool, master: bool, scores: map<string, int>, started: map<string, bool>,
                         log: seq<Step>)

  /** What a completed command changes. */
  function Apply(w: World, step: Step): World {
    match step
    case StartService => w.(running := true)
    case StopService => w.(running := false)
    case StartMaster => w.(master := true)
    case StopMaster => w.(master := false)
    case WriteScore(n, s) => w.(scores := w.scores[n := s])
    case ClearScore(n) => w.(scores := w.scores - {n})
    case MarkStarted(n) => w.(started := w.started[n := true])
    case ClearStarted(n) => w.(started := w.started - {n})
    case _ => w
  }

  /**
   * Issue one command: it is logged, and it either fails with the message
   * `failures` holds for it, changing nothing else, or takes effect.
   */
  function Attempt(w: World, failures: map<Step, string>, step: Step): (o: (Result<()>, World))
    ensures step.Raise? ==> o == (Err(step.error), w)
    ensures !step.Raise? ==> o.1.log == w.log + [step]
    ensures !step.Raise? && step in failures ==> o == (Err(Raised(GenericError, failures[step])), w.(log := w.log + [step]))
    ensures !step.Raise? && step !in failures ==> o == (Ok(()), Apply(w.(log := w.log + [step]), step))
  {
    if step.Raise? then (Err(step.error), w)
    else
      var logged := w.(log := w.log + [step]);
      if step in failures then (Err(Raised(GenericError, failures[step])), logged)
      else (Ok(()), Apply(logged, step))
  }

  /** Issue the commands of a plan in order, stopping at the first that fails. */
  function Execute(w: World, failures: map<Step, string>, plan: seq<Step>): (Result<()>, World)
    decreases |plan|
  {
    if |plan| == 0 then (Ok(()), w)
    else
      var (o, w1) := Attempt(w, failures, plan[0]);
      if o.Err? then (o, w1) else Execute(w1, failures, plan[1..])
  }

  /** Running two plans one after the other is running the second only if the first completed. */
  lemma {:induction false} ExecuteAppend(w: World, failures: map<Step, string>, p: seq<Step>, q: seq<Step>)
    ensures Execute(w, failures, p + q) ==
      (var (o, w1) := Execute(w, failures, p); if o.Err? then (o, w1) else Execute(w1, failures, q))
    decreases |p|
  {
    if |p| > 0 {
      assert (p + q)[0] == p[0] && (p + q)[1..] == p[1..] + q;
      var (o, w1) := Attempt(w, failures, p[0]);
      if o.Ok? {
        ExecuteAppend(w1, failures, p[1..], q);
      }
    } else {
      assert p + q == q;
    }
  }

  /** A completed command returns nothing. */
  lemma Completed(o: Result<()>)
    requires o.Ok?
    ensures o == Ok(())
  {
    match o.value {
      case () =>
    }
  }

  /** The outcome of an action that returns `rc` once its plan has completed. */
  function Finish(out: (Result<()>, World), rc: Option<int>): (r: (Result<Option<int>>, World))
    ensures r.0.Ok? <==> out.0.Ok?
    ensures r.0.Ok? ==> r.0.value == rc
    ensures r.1 == out.1
  {
    (if out.0.Ok? then Ok(rc) else Err(out.0.error), out.1)
  }

  /** The three agents of systemcloud/agent.py. */
  datatype Kind = SingleState | MultiState | Bootstrapping

  /**
   * `action_validate` of the multi-state agents, given what it reads:
   * `is_master_slave`, `meta_notify`, `meta_master_node_max` and
   * `meta_master_max`.  Master/slave, notifications on, at most one master
   * per node and more than one master are checked in that order.
   */
  function MultiValidateOf(masterSlave: Result<bool>, notify: Option<bool>, perNode: Result<Option<int>>,
                           masterMax: Option<int>): (r: Result<Option<int>>)
    ensures masterSlave.Err? ==> r == Err(masterSlave.error)
    ensures masterSlave == Ok(false) ==> r == Err(Raised(ConfiguredError, "Must be a master/slave resource"))
    ensures masterSlave == Ok(true) && notify != Some(true) ==> r == Err(Raised(ConfiguredError, "Must have notifications enabled"))
    ensures masterSlave == Ok(true) && notify == Some(true) && perNode.Err? ==> r == Err(perNode.error)
    ensures masterSlave == Ok(true) && notify == Some(true) && perNode.Ok? && PyGreater(perNode.value, 1) ==>
      r == Err(Raised(ConfiguredError, "Must have only one master per node"))
    ensures r.Ok? <==>
      masterSlave == Ok(true) && notify == Some(true) && perNode.Ok? && !PyGreater(perNode.value, 1) && PyGreater(masterMax, 1)
    ensures r.Ok? ==> r.value == Some(SUCCESS)
  {
    match masterSlave
    case Err(e) => Err(e)
    case Ok(false) => Err(Raised(ConfiguredError, "Must be a master/slave resource"))
    case Ok(true) =>
      if notify != Some(true) then Err(Raised(ConfiguredError, "Must have notifications enabled"))
      else match perNode
        case Err(e) => Err(e)
        case Ok(n) =>
          if PyGreater(n, 1) then Err(Raised(ConfiguredError, "Must have only one master per node"))
          else if !PyGreater(masterMax, 1) then Err(Raised(ConfiguredError, "Must have more than one master"))
          else Ok(Some(SUCCESS))
  }

  /** `MultiStateResourceAgent.action_validate` on the agent's environment. */
  function MultiValidate(environ: Environ): (r: Result<Option<int>>)
    ensures r.Ok? ==> r == Ok(Some(SUCCESS)) && IsMasterSlave(environ) == Ok(true) && MetaBool(environ, "notify") == Some(true)
    ensures IsMasterSlave(environ) == Ok(false) ==> r == Err(Raised(ConfiguredError, "Must be a master/slave resource"))
  {
    var masterMax := MetaInt(environ, "master_max");
    MultiValidateOf(IsMasterSlave(environ), MetaBool(environ, "notify"), MetaInt(environ, "master_node_max"),
                    if masterMax.Ok? then masterMax.value else None)
  }

  /** `self.action_validate()`: the single-state agent inherits the one that always succeeds. */
  function Validation(kind: Kind, environ: Environ): (r: Result<Option<int>>)
    ensures kind == SingleState ==> r == Ok(Some(SUCCESS))
    ensures r.Ok? ==> r == Ok(Some(SUCCESS))
  {
    if kind == SingleState then Ok(Some(SUCCESS)) else MultiValidate(environ)
  }

  /** An exception the agent raises, as a plan that stops at once; nothing when there is none. */
  function Check<T>(r: Result<T>): (p: seq<Step>)
    ensures r.Ok? ==> p == []
    ensures r.Err? ==> p == [Raise(r.error)]
  {
    if r.Err? then [Raise(r.error)] else []
  }

  /** `is_bootstrap`: no master yet and this node among those being promoted. */
  function IsBootstrap(environ: Environ, node: string): (r: Result<bool>)
    ensures NotifyList(environ, Unames, "master").Some? && |NotifyList(environ, Unames, "master").value| > 0 ==> r == Ok(false)
    ensures r == Ok(true) <==>
      (NotifyList(environ, Unames, "master").None? || NotifyList(environ, Unames, "master").value == []) &&
      NotifyList(environ, Unames, "promote").Some? && node in NotifyList(environ, Unames, "promote").value
  {
    var masters := NotifyList(environ, Unames, "master");
    if masters.Some? && |masters.value| > 0 then Ok(false)
    else
      match NotifyList(environ, Unames, "promote")
      case None => Err(Exception("argument of type 'NoneType' is not iterable"))
      case Some(ps) => Ok(node in ps)
  }

  /**
   * The arguments of the log call in `action_notify`: the notification
   * must exist and its node list must be set.
   */
  function NotifyCheck(environ: Environ): (r: Result<()>)
    ensures r.Ok? <==> NotificationOf(environ).Some? && NotificationUnames(environ, NotificationOf(environ).value).Some?
  {
    match NotificationOf(environ)
    case None => Err(Exception("'NoneType' object has no attribute 'unames'"))
    case Some(n) =>
      if NotificationUnames(environ, n).None? then Err(Exception("can only join an iterable")) else Ok(())
  }

  /** `ResourceAgent.action_start`: stop an anomalously running service, reconfigure, start. */
  function ResourceStartPlan(running: bool): seq<Step> {
    (if running then [StopService] else []) + [Reconfigure, StartService]
  }

  /** `MultiStateResourceAgent.action_start`: stop an anomalously running master first. */
  function MultiStartPlan(running: bool, master: bool): seq<Step> {
    (if master then [StopMaster] else []) + ResourceStartPlan(running)
  }

  /** `trigger_promote_bootstrap`: promote the elected node, if there is one. */
  function BootstrapPlan(election: Result<Option<string>>): (p: seq<Step>)
    ensures forall s :: s in p ==> s.WriteScore? || s.Raise?
  {
    match election
    case Err(e) => [Raise(e)]
    case Ok(None) => []
    case Ok(Some(b)) => [WriteScore(b, DEFAULT_SCORE)]
  }

  /** Join the running cluster, or bootstrap a new one when no master runs. */
  function JoinPlan(environ: Environ, node: string, election: Result<Option<string>>): seq<Step> {
    match Current(environ, Unames, MASTER)
    case Err(e) => [Raise(e)]
    case Ok(masters) => if |masters| > 0 then [WriteScore(node, DEFAULT_SCORE)] else BootstrapPlan(election)
  }

  /** `BootstrappingAgent.action_start`: start, clear the own score, join or elect, record as started. */
  function BootStartPlan(running: bool, master: bool, environ: Environ, node: string, election: Result<Option<string>>): seq<Step> {
    MultiStartPlan(running, master) + EnlistPlan(environ, node, election)
  }

  /** What the bootstrapping agent does once the service has started. */
  function EnlistPlan(environ: Environ, node: string, election: Result<Option<string>>): seq<Step> {
    [ClearScore(node)] + JoinPlan(environ, node, election) + [MarkStarted(node)]
  }

  /** `ResourceAgent.action_stop`: validate, reconfigure, stop. */
  function ResourceStopPlan(validation: Result<Option<int>>): seq<Step> {
    Check(validation) + [Reconfigure, StopService]
  }

  /** `BootstrappingAgent.action_stop`: stop, then delete `started`. */
  function BootStopPlan(validation: Result<Option<int>>, node: string): seq<Step> {
    ResourceStopPlan(validation) + [ClearStarted(node)]
  }

  /** `MultiStateResourceAgent.action_promote`: stop an anomalously running master, reconfigure, start the master. */
  function MultiPromotePlan(master: bool): seq<Step> {
    (if master then [StopMaster] else []) + [Reconfigure, StartMaster]
  }

  /** `trigger_promote_all`: promote every peer but this node, in order. */
  function PromoteAllPlan(peers: seq<string>, node: string): (p: seq<Step>)
    ensures forall s :: s in p ==> s.WriteScore? && s.node != node && s.node in peers && s.score == DEFAULT_SCORE
  {
    if |peers| == 0 then []
    else (if peers[0] != node then [WriteScore(peers[0], DEFAULT_SCORE)] else []) + PromoteAllPlan(peers[1..], node)
  }

  /** `BootstrappingAgent.action_promote`: promote, then the bootstrap node promotes all the others. */
  function BootPromotePlan(master: bool, environ: Environ, node: string, peers: seq<string>): seq<Step> {
    MultiPromotePlan(master) +
    match IsBootstrap(environ, node)
    case Err(e) => [Raise(e)]
    case Ok(b) => if b then PromoteAllPlan(peers, node) else []
  }

  /** After the master has started, the bootstrap node only promotes its peers, never itself. */
  lemma BootPromoteSteps(master: bool, environ: Environ, node: string, peers: seq<string>, i: int)
    requires |MultiPromotePlan(master)| <= i < |BootPromotePlan(master, environ, node, peers)|
    ensures var s := BootPromotePlan(master, environ, node, peers)[i];
      s.Raise? || (s.WriteScore? && s.node != node && s.node in peers && s.score == DEFAULT_SCORE)
  {
    var k := |MultiPromotePlan(master)|;
    var p := BootPromotePlan(master, environ, node, peers);
    assert p[i] in p[k..];
  }

  /** Running the multi-state start is stopping the master, if it runs, and then the single-state start. */
  lemma MultiStartSplit(w: World, failures: map<Step, string>, running: bool, master: bool)
    ensures Execute(w, failures, MultiStartPlan(running, master)) ==
      if !master then Execute(w, failures, ResourceStartPlan(running))
      else
        var (o, w1) := Attempt(w, failures, StopMaster);
        if o.Err? then (o, w1) else Execute(w1, failures, ResourceStartPlan(running))
  {
    var p := MultiStartPlan(running, master);
    if master {
      assert p[0] == StopMaster && p[1..] == ResourceStartPlan(running);
    } else {
      assert p == ResourceStartPlan(running);
    }
  }

  /** `action_demote`: reconfigure, stop the master. */
  const DEMOTE_PLAN: seq<Step> := [Reconfigure, StopMaster]

  /** `action_notify`: log the notification, reconfigure. */
  function NotifyPlan(environ: Environ): seq<Step> {
    Check(NotifyCheck(environ)) + [Reconfigure]
  }

  /** The start actions: a running master, then a running service, is stopped first; the service is started right after reconfiguring. */
  lemma StartPlans(running: bool, master: bool)
    ensures var p := ResourceStartPlan(running);
      |p| == (if running then 3 else 2) && p[|p| - 2..] == [Reconfigure, StartService] && (p[0] == StopService <==> running)
    ensures var p := MultiStartPlan(running, master);
      |p| == 2 + (if master then 1 else 0) + (if running then 1 else 0) &&
      p[|p| - 2..] == [Reconfigure, StartService] &&
      (p[0] == StopMaster <==> master) && (p[if master then 1 else 0] == StopService <==> running)
  {
  }

  /** What the bootstrapping agent does once the service has started: clear the own score, write scores or raise, record `started`. */
  lemma EnlistSteps(environ: Environ, node: string, election: Result<Option<string>>)
    ensures var p := EnlistPlan(environ, node, election);
      |p| >= 2 && p[0] == ClearScore(node) && p[|p| - 1] == MarkStarted(node) &&
      forall i :: 0 < i < |p| - 1 ==> p[i].WriteScore? || p[i].Raise?
  {
    var e := EnlistPlan(environ, node, election);
    var j := JoinPlan(environ, node, election);
    JoinSteps(environ, node, election);
    assert e == [ClearScore(node)] + j + [MarkStarted(node)];
    forall i | 0 < i < |e| - 1
      ensures e[i].WriteScore? || e[i].Raise?
    {
      assert e[i] == j[i - 1];
      assert j[i - 1] in j;
    }
  }

  /** The bootstrapping start: the service is started, then the own score is cleared, and `started` is recorded last. */
  lemma BootStartPlans(running: bool, master: bool, environ: Environ, node: string, election: Result<Option<string>>)
    ensures var p := BootStartPlan(running, master, environ, node, election);
      var k := |MultiStartPlan(running, master)|;
      2 <= k < |p| - 1 && p[k - 1] == StartService && p[k] == ClearScore(node) && p[|p| - 1] == MarkStarted(node)
  {
    var m := MultiStartPlan(running, master);
    var e := EnlistPlan(environ, node, election);
    var p := BootStartPlan(running, master, environ, node, election);
    StartPlans(running, master);
    EnlistSteps(environ, node, election);
    assert p == m + e;
    assert p[|m| - 1] == m[|m| - 1];
    assert p[|m|] == e[0];
    assert p[|p| - 1] == e[|e| - 1];
  }

  /** Joining writes this node's score when a master runs, and otherwise only elects. */
  lemma JoinSteps(environ: Environ, node: string, election: Result<Option<string>>)
    ensures forall s :: s in JoinPlan(environ, node, election) ==> s.WriteScore? || s.Raise?
    ensures Current(environ, Unames, MASTER).Ok? && |Current(environ, Unames, MASTER).value| > 0 ==>
      JoinPlan(environ, node, election) == [WriteScore(node, DEFAULT_SCORE)]
    ensures Current(environ, Unames, MASTER).Err? ==>
      JoinPlan(environ, node, election) == [Raise(Current(environ, Unames, MASTER).error)]
  {
  }

  /** The stop actions: a validation failure raises first; otherwise reconfigure and stop, and the bootstrapping agent then deletes `started`. */
  lemma StopPlans(validation: Result<Option<int>>, node: string)
    ensures var p := ResourceStopPlan(validation);
      |p| >= 2 && p[|p| - 1] == StopService &&
      (validation.Ok? ==> p == [Reconfigure, StopService]) && (validation.Err? ==> p[0] == Raise(validation.error))
    ensures var p := BootStopPlan(validation, node);
      |p| >= 3 && p[|p| - 2] == StopService && p[|p| - 1] == ClearStarted(node) &&
      (validation.Err? ==> p[0] == Raise(validation.error))
  {
  }

  /**
   * The promote actions: a running master is stopped first and the master
   * started right after reconfiguring; the bootstrapping agent then raises,
   * does nothing more, or promotes the other peers.
   */
  lemma PromotePlans(master: bool, environ: Environ, node: string, peers: seq<string>)
    ensures var p := MultiPromotePlan(master);
      |p| == (if master then 3 else 2) && p[|p| - 2..] == [Reconfigure, StartMaster] && (p[0] == StopMaster <==> master)
    ensures var p := BootPromotePlan(master, environ, node, peers);
      var k := |MultiPromotePlan(master)|;
      k <= |p| && p[k - 1] == StartMaster &&
      (IsBootstrap(environ, node) == Ok(false) ==> p == MultiPromotePlan(master)) &&
      (IsBootstrap(environ, node).Err? ==> p == MultiPromotePlan(master) + [Raise(IsBootstrap(environ, node).error)])
  {
  }

  /** The notify action reconfigures last, and raises before it exactly when the notification cannot be logged. */
  lemma NotifyPlanShape(environ: Environ)
    ensures var p := NotifyPlan(environ); |p| > 0 && p[|p| - 1] == Reconfigure
    ensures NotifyPlan(environ) == [Reconfigure] <==> NotifyCheck(environ).Ok?
  {
  }

  /** `MultiStateResourceAgent.action_monitor` once validated: stopped, master or slave. */
  function MultiStatus(running: bool, master: bool): (rc: int)
    ensures rc == NOT_RUNNING <==> !running
    ensures rc == RUNNING_MASTER <==> running && master
    ensures rc == SUCCESS <==> running && !master
  {
    if !running then NOT_RUNNING else if master then RUNNING_MASTER else SUCCESS
  }

  /** `not self.started`: unset or false. */
  predicate Started(started: map<string, bool>, node: string) {
    node in started && started[node]
  }

  /** `not self.score`: unset or zero. */
  predicate HasScore(scores: map<string, int>, node: string) {
    node in scores && scores[node] != 0
  }

  /**
   * `BootstrappingAgent.action_monitor`: stopped unless `started`; otherwise
   * the multi-state status, and while a slave without a score, a fresh
   * election whose failures are logged and ignored.
   */
  function BootMonitorOutcome(w: World, failures: map<Step, string>, validation: Result<Option<int>>, node: string,
                              election: Result<Option<string>>): (r: (Result<Option<int>>, World))
    ensures validation.Err? ==> r == (Err(validation.error), w)
    ensures validation.Ok? ==>
      r.0 == Ok(Some(if Started(w.started, node) then MultiStatus(w.running, w.master) else NOT_RUNNING))
    ensures r.1 != w ==> Started(w.started, node) && w.running && !w.master && !HasScore(w.scores, node)
    ensures validation.Ok? && Started(w.started, node) && w.running && !w.master && !HasScore(w.scores, node) ==>
      r.1 == Execute(w, failures, BootstrapPlan(election)).1
  {
    match validation
    case Err(e) => (Err(e), w)
    case Ok(_) =>
      if !Started(w.started, node) then (Ok(Some(NOT_RUNNING)), w)
      else
        var status := MultiStatus(w.running, w.master);
        if status == SUCCESS && !HasScore(w.scores, node) then (Ok(Some(status)), Execute(w, failures, BootstrapPlan(election)).1)
        else (Ok(Some(status)), w)
  }

  /** `action_monitor` of the single-state and multi-state agents, which change nothing. */
  function MonitorStatus(kind: Kind, environ: Environ, w: World): (r: Result<Option<int>>)
    ensures Validation(kind, environ).Err? ==> r == Err(Validation(kind, environ).error)
    ensures Validation(kind, environ).Ok? && kind == SingleState ==> r == Ok(Some(if w.running then SUCCESS else NOT_RUNNING))
    ensures Validation(kind, environ).Ok? && kind != SingleState ==> r == Ok(Some(MultiStatus(w.running, w.master)))
  {
    var v := Validation(kind, environ);
    if v.Err? then Err(v.error)
    else if kind == SingleState then Ok(Some(if w.running then SUCCESS else NOT_RUNNING))
    else Ok(Some(MultiStatus(w.running, w.master)))
  }

  /**
   * What the action `a` of an agent of kind `kind` returns and leaves behind,
   * started in `w`: the single-state agent inherits the refusing promote and
   * demote of `ocf.ResourceAgent`, every agent its meta-data action.
   */
  function ActionOutcome(kind: Kind, w: World, failures: map<Step, string>, environ: Environ, node: string,
                         peers: seq<string>, election: Result<Option<string>>, metadata: Option<string>,
                         a: OcfAgent.ActionName): (r: (Result<Option<int>>, World))
    ensures a == OcfAgent.MetaData || a == OcfAgent.ValidateAll ==> r.1 == w
    ensures a == OcfAgent.Monitor && kind != Bootstrapping ==> r.1 == w
    ensures kind == SingleState && (a == OcfAgent.Promote || a == OcfAgent.Demote) ==>
      r.1 == w && r.0.Err? && r.0.error.Raised? && r.0.error.cls == UnimplementedError
    ensures r.0.Ok? && r.0.value.None? ==> kind == MultiState && a == OcfAgent.Start
  {
    match a
    case MetaData => (OcfAgent.BaseAction(a, metadata), w)
    case ValidateAll => (Validation(kind, environ), w)
    case Notify => Finish(Execute(w, failures, NotifyPlan(environ)), Some(SUCCESS))
    case Monitor =>
      if kind == Bootstrapping then BootMonitorOutcome(w, failures, Validation(kind, environ), node, election)
      else (MonitorStatus(kind, environ, w), w)
    case Start =>
      if kind == SingleState then Finish(Execute(w, failures, ResourceStartPlan(w.running)), Some(SUCCESS))
      else if kind == MultiState then Finish(Execute(w, failures, MultiStartPlan(w.running, w.master)), None)
      else Finish(Execute(w, failures, BootStartPlan(w.running, w.master, environ, node, election)), Some(SUCCESS))
    case Promote =>
      if kind == SingleState then (OcfAgent.BaseAction(a, metadata), w)
      else if kind == MultiState then Finish(Execute(w, failures, MultiPromotePlan(w.master)), Some(SUCCESS))
      else Finish(Execute(w, failures, BootPromotePlan(w.master, environ, node, peers)), Some(SUCCESS))
    case Demote =>
      if kind == SingleState then (OcfAgent.BaseAction(a, metadata), w)
      else Finish(Execute(w, failures, DEMOTE_PLAN), Some(SUCCESS))
    case Stop =>
      if kind == Bootstrapping then Finish(Execute(w, failures, BootStopPlan(Validation(kind, environ), node)), Some(SUCCESS))
      else Finish(Execute(w, failures, ResourceStopPlan(Validation(kind, environ))), Some(SUCCESS))
  }

  /** A resource agent for a systemd service, during one action on one node. */
  class ServiceAgent {
    var running: bool
    var master: bool
    var scores: map<string, int>
    var started: map<string, bool>
    var log: seq<Step>
    const kind: Kind
    const node: string
    const environ: Environ
    /** `all_peers`, by node name. */
    const peers: seq<string>
    /** What `choose_bootstrap` returns: the elected node, None, or the exception it raises. */
    const election: Result<Option<string>>
    /** The commands that fail, with the message of the GenericError they raise. */
    const failures: map<Step, string>
    /** The agent's `metadata` text; None when the class sets none. */
    const metadata: Option<string>

    constructor(kind: Kind, node: string, environ: Environ, peers: seq<string>, election: Result<Option<string>>,
                failures: map<Step, string>, metadata: Option<string>, w: World)
      ensures this.kind == kind && this.node == node && this.environ == environ && this.peers == peers
      ensures this.election == election && this.failures == failures && this.metadata == metadata && Now() == w
    {
      this.metadata := metadata;
      this.kind := kind;
      this.node := node;
      this.environ := environ;
      this.peers := peers;
      this.election := election;
      this.failures := failures;
      running := w.running;
      master := w.master;
      scores := w.scores;
      started := w.started;
      log := w.log;
    }

    function Now(): World
      reads this
    {
      World(running, master, scores, started, log)
    }

    /** Issue one command. */
    method Do(step: Step) returns (o: Result<()>)
      modifies this
      ensures (o, Now()) == Attempt(old(Now()), failures, step)
    {
      if step.Raise? {
        return Err(step.error);
      }
      log := log + [step];
      if step in failures {
        return Err(Raised(GenericError, failures[step]));
      }
      match step {
        case StartService => running := true;
        case StopService => running := false;
        case StartMaster => master := true;
        case StopMaster => master := false;
        case WriteScore(n, s) => scores := scores[n := s];
        case ClearScore(n) => scores := scores - {n};
        case MarkStarted(n) => started := started[n := true];
        case ClearStarted(n) => started := started - {n};
        case Reconfigure =>
      }
      o := Ok(());
    }

    /** Issue one more command of a plan whose earlier commands completed. */
    method Then(ghost w0: World, ghost done: seq<Step>, step: Step) returns (o: Result<()>)
      requires Execute(w0, failures, done).0.Ok? && Execute(w0, failures, done).1 == Now()
      modifies this
      ensures o.Ok? ==> Execute(w0, failures, done + [step]) == (Ok(()), Now())
      ensures o.Err? ==> Execute(w0, failures, done + [step]) == (o, Now())
    {
      o := Do(step);
      ExecuteAppend(w0, failures, done, [step]);
    }

    /** `ResourceAgent.action_start`. */
    method ResourceStart() returns (r: Result<Option<int>>)
      modifies this
      ensures (r, Now()) == Finish(Execute(old(Now()), failures, ResourceStartPlan(old(running))), Some(SUCCESS))
    {
      ghost var w0 := Now();
      ghost var done: seq<Step> := [];
      var o: Result<()>;
      if running {
        o := Then(w0, done, StopService);
        done := done + [StopService];
        if o.Err? {
          ExecuteAppend(w0, failures, done, [Reconfigure, StartService]);
          return Err(o.error);
        }
      }
      o := Then(w0, done, Reconfigure);
      done := done + [Reconfigure];
      if o.Err? {
        ExecuteAppend(w0, failures, done, [StartService]);
        return Err(o.error);
      }
      o := Then(w0, done, StartService);
      done := done + [StartService];
      assert done == ResourceStartPlan(w0.running);
      r := if o.Ok? then Ok(Some(SUCCESS)) else Err(o.error);
    }

    /** `MultiStateResourceAgent.action_start`; it returns None, which exits as success. */
    method MultiStart() returns (r: Result<Option<int>>)
      modifies this
      ensures (r, Now()) == Finish(Execute(old(Now()), failures, MultiStartPlan(old(running), old(master))), None)
    {
      ghost var w0 := Now();
      MultiStartSplit(w0, failures, running, master);
      if master {
        var o := Do(StopMaster);
        if o.Err? {
          assert Execute(w0, failures, MultiStartPlan(w0.running, w0.master)) == (o, Now());
          return Err(o.error);
        }
      }
      ghost var w1 := Now();
      assert w1.running == w0.running;
      assert Execute(w0, failures, MultiStartPlan(w0.running, w0.master)) == Execute(w1, failures, ResourceStartPlan(w0.running));
      var s := ResourceStart();
      r := if s.Ok? then Ok(None) else s;
    }

    /** `trigger_promote_bootstrap`. */
    method TriggerPromoteBootstrap() returns (o: Result<()>)
      modifies this
      ensures (o, Now()) == Execute(old(Now()), failures, BootstrapPlan(election))
    {
      match election {
        case Err(e) =>
          o := Err(e);
        case Ok(None) =>
          o := Ok(());
        case Ok(Some(b)) =>
          o := Do(WriteScore(b, DEFAULT_SCORE));
      }
    }

    /** Join the running cluster, or trigger the election of a bootstrap node when no master runs. */
    method Join() returns (o: Result<()>)
      modifies this
      ensures (o, Now()) == Execute(old(Now()), failures, JoinPlan(environ, node, election))
    {
      var masters := Current(environ, Unames, MASTER);
      if masters.Err? {
        return Err(masters.error);
      } else if |masters.value| > 0 {
        o := Do(WriteScore(node, DEFAULT_SCORE));
      } else {
        o := TriggerPromoteBootstrap();
      }
    }

    /** `BootstrappingAgent.action_start`. */
    method BootStart() returns (r: Result<Option<int>>)
      modifies this
      ensures (r, Now()) == Finish(Execute(old(Now()), failures, BootStartPlan(old(running), old(master), environ, node, election)),
                                   Some(SUCCESS))
    {
      ghost var w0 := Now();
      var s := MultiStart();
      ExecuteAppend(w0, failures, MultiStartPlan(w0.running, w0.master), EnlistPlan(environ, node, election));
      if s.Err? {
        return s;
      }
      var o := Enlist();
      r := if o.Ok? then Ok(Some(SUCCESS)) else Err(o.error);
    }

    /** Prevent automatic promotion on restart, join or bootstrap the cluster, record as started. */
    method Enlist() returns (o: Result<()>)
      modifies this
      ensures (o, Now()) == Execute(old(Now()), failures, EnlistPlan(environ, node, election))
    {
      ghost var w0 := Now();
      ghost var join := JoinPlan(environ, node, election);
      o := Do(ClearScore(node));
      ExecuteAppend(w0, failures, [ClearScore(node)], join);
      ExecuteAppend(w0, failures, [ClearScore(node)] + join, [MarkStarted(node)]);
      if o.Err? {
        return;
      }
      ghost var w1 := Now();
      o := Join();
      ExecuteAppend(w1, failures, join, [MarkStarted(node)]);
      if o.Err? {
        return;
      }
      o := Do(MarkStarted(node));
    }

    /** `ResourceAgent.action_stop`. */
    method ResourceStop() returns (r: Result<Option<int>>)
      modifies this
      ensures (r, Now()) == Finish(Execute(old(Now()), failures, ResourceStopPlan(Validation(kind, environ))), Some(SUCCESS))
    {
      ghost var w0 := Now();
      var v := Validation(kind, environ);
      if v.Err? {
        return Err(v.error);
      }
      var o := Then(w0, [], Reconfigure);
      assert [] + [Reconfigure] == [Reconfigure];
      if o.Err? {
        ExecuteAppend(w0, failures, [Reconfigure], [StopService]);
        return Err(o.error);
      }
      o := Then(w0, [Reconfigure], StopService);
      assert [Reconfigure] + [StopService] == ResourceStopPlan(v);
      r := if o.Ok? then Ok(Some(SUCCESS)) else Err(o.error);
    }

    /** `BootstrappingAgent.action_stop`. */
    method BootStop() returns (r: Result<Option<int>>)
      modifies this
      ensures (r, Now()) == Finish(Execute(old(Now()), failures, BootStopPlan(Validation(kind, environ), node)), Some(SUCCESS))
    {
      ghost var w0 := Now();
      ghost var done := ResourceStopPlan(Validation(kind, environ));
      var s := ResourceStop();
      ExecuteAppend(w0, failures, done, [ClearStarted(node)]);
      if s.Err? {
        return s;
      }
      var o := Then(w0, done, ClearStarted(node));
      r := if o.Ok? then Ok(Some(SUCCESS)) else Err(o.error);
    }

    /** `MultiStateResourceAgent.action_promote`. */
    method MultiPromote() returns (r: Result<Option<int>>)
      modifies this
      ensures (r, Now()) == Finish(Execute(old(Now()), failures, MultiPromotePlan(old(master))), Some(SUCCESS))
    {
      ghost var w0 := Now();
      ghost var done: seq<Step> := [];
      var o: Result<()>;
      if master {
        o := Then(w0, done, StopMaster);
        done := done + [StopMaster];
        if o.Err? {
          ExecuteAppend(w0, failures, done, [Reconfigure, StartMaster]);
          return Err(o.error);
        }
      }
      o := Then(w0, done, Reconfigure);
      done := done + [Reconfigure];
      if o.Err? {
        ExecuteAppend(w0, failures, done, [StartMaster]);
        return Err(o.error);
      }
      o := Then(w0, done, StartMaster);
      done := done + [StartMaster];
      assert done == MultiPromotePlan(w0.master);
      r := if o.Ok? then Ok(Some(SUCCESS)) else Err(o.error);
    }

    /** `trigger_promote_all`: the loop over `all_peers`. */
    method TriggerPromoteAll() returns (o: Result<()>)
      modifies this
      ensures (o, Now()) == Execute(old(Now()), failures, PromoteAllPlan(peers, node))
    {
      ghost var w0 := Now();
      var i := 0;
      while i < |peers|
        invariant 0 <= i <= |peers|
        invariant Execute(w0, failures, PromoteAllPlan(peers[..i], node)).0.Ok?
        invariant Execute(w0, failures, PromoteAllPlan(peers[..i], node)).1 == Now()
      {
        ghost var done := PromoteAllPlan(peers[..i], node);
        PromoteAllStep(peers, i, node);
        if peers[i] != node {
          o := Then(w0, done, WriteScore(peers[i], DEFAULT_SCORE));
          if o.Err? {
            PromoteAllRest(peers, i + 1, node);
            ExecuteAppend(w0, failures, PromoteAllPlan(peers[..i + 1], node), PromoteAllPlan(peers[i + 1..], node));
            return;
          }
        } else {
          assert done + [] == done;
        }
        i := i + 1;
      }
      assert peers[..i] == peers;
      o := Ok(());
      Completed(Execute(w0, failures, PromoteAllPlan(peers, node)).0);
    }

    /** `BootstrappingAgent.action_promote`. */
    method BootPromote() returns (r: Result<Option<int>>)
      modifies this
      ensures (r, Now()) == Finish(Execute(old(Now()), failures, BootPromotePlan(old(master), environ, node, peers)), Some(SUCCESS))
    {
      ghost var w0 := Now();
      ghost var done := MultiPromotePlan(w0.master);
      ghost var rest := match IsBootstrap(environ, node)
        case Err(e) => [Raise(e)]
        case Ok(b) => if b then PromoteAllPlan(peers, node) else [];
      var s := MultiPromote();
      ExecuteAppend(w0, failures, done, rest);
      if s.Err? {
        return s;
      }
      var bootstrap := IsBootstrap(environ, node);
      if bootstrap.Err? {
        return Err(bootstrap.error);
      }
      if bootstrap.value {
        var o := TriggerPromoteAll();
        if o.Err? {
          return Err(o.error);
        }
      }
      r := Ok(Some(SUCCESS));
    }

    /** `MultiStateResourceAgent.action_demote`. */
    method Demote() returns (r: Result<Option<int>>)
      modifies this
      ensures (r, Now()) == Finish(Execute(old(Now()), failures, DEMOTE_PLAN), Some(SUCCESS))
    {
      ghost var w0 := Now();
      var o := Then(w0, [], Reconfigure);
      assert [] + [Reconfigure] == [Reconfigure];
      if o.Err? {
        ExecuteAppend(w0, failures, [Reconfigure], [StopMaster]);
        return Err(o.error);
      }
      o := Then(w0, [Reconfigure], StopMaster);
      assert [Reconfigure] + [StopMaster] == DEMOTE_PLAN;
      r := if o.Ok? then Ok(Some(SUCCESS)) else Err(o.error);
    }

    /** `ResourceAgent.action_notify`. */
    method Notify() returns (r: Result<Option<int>>)
      modifies this
      ensures (r, Now()) == Finish(Execute(old(Now()), failures, NotifyPlan(environ)), Some(SUCCESS))
    {
      ghost var w0 := Now();
      var c := NotifyCheck(environ);
      if c.Err? {
        return Err(c.error);
      }
      var o := Then(w0, [], Reconfigure);
      assert [] + [Reconfigure] == NotifyPlan(environ);
      r := if o.Ok? then Ok(Some(SUCCESS)) else Err(o.error);
    }

    /** `ResourceAgent.action_monitor`: success while the service runs. */
    method ResourceMonitor() returns (r: Result<Option<int>>)
      ensures Validation(kind, environ).Err? ==> r == Err(Validation(kind, environ).error)
      ensures Validation(kind, environ).Ok? ==> r == Ok(Some(if running then SUCCESS else NOT_RUNNING))
    {
      var v := Validation(kind, environ);
      if v.Err? {
        return Err(v.error);
      }
      r := Ok(Some(if running then SUCCESS else NOT_RUNNING));
    }

    /** `MultiStateResourceAgent.action_monitor`. */
    method MultiMonitor() returns (r: Result<Option<int>>)
      ensures Validation(kind, environ).Err? ==> r == Err(Validation(kind, environ).error)
      ensures Validation(kind, environ).Ok? ==> r.Ok? && r.value.Some?
      ensures r.Ok? ==> (r.value == Some(NOT_RUNNING) <==> !running) && (r.value == Some(RUNNING_MASTER) <==> running && master)
      ensures r.Ok? ==> (r.value == Some(SUCCESS) <==> running && !master)
    {
      var v := Validation(kind, environ);
      if v.Err? {
        return Err(v.error);
      }
      if running {
        if master {
          r := Ok(Some(RUNNING_MASTER));
        } else {
          r := Ok(Some(SUCCESS));
        }
      } else {
        r := Ok(Some(NOT_RUNNING));
      }
    }

    /** `BootstrappingAgent.action_monitor`. */
    method BootMonitor() returns (r: Result<Option<int>>)
      modifies this
      ensures (r, Now()) == BootMonitorOutcome(old(Now()), failures, Validation(kind, environ), node, election)
    {
      var v := Validation(kind, environ);
      if v.Err? {
        return Err(v.error);
      }
      if !(node in started && started[node]) {
        return Ok(Some(NOT_RUNNING));
      }
      var status := MultiMonitor();
      if status == Ok(Some(SUCCESS)) {
        if !(node in scores && scores[node] != 0) {
          var ignored := TriggerPromoteBootstrap();
        }
      }
      r := status;
    }
    /** The method `dispatch` looks up for the action `a`, run on this agent. */
    method Run(a: OcfAgent.ActionName) returns (r: Result<Option<int>>)
      modifies this
      ensures (r, Now()) == ActionOutcome(kind, old(Now()), failures, environ, node, peers, election, metadata, a)
    {
      match a {
        case MetaData =>
          r := OcfAgent.BaseAction(a, metadata);
        case ValidateAll =>
          r := Validation(kind, environ);
        case Notify =>
          r := Notify();
        case Monitor =>
          if kind == SingleState {
            r := ResourceMonitor();
          } else if kind == MultiState {
            r := MultiMonitor();
          } else {
            r := BootMonitor();
          }
        case Start =>
          if kind == SingleState {
            r := ResourceStart();
          } else if kind == MultiState {
            r := MultiStart();
          } else {
            r := BootStart();
          }
        case Promote =>
          if kind == SingleState {
            r := OcfAgent.BaseAction(a, metadata);
          } else if kind == MultiState {
            r := MultiPromote();
          } else {
            r := BootPromote();
          }
        case Demote =>
          if kind == SingleState {
            r := OcfAgent.BaseAction(a, metadata);
          } else {
            r := Demote();
          }
        case Stop =>
          if kind == Bootstrapping {
            r := BootStop();
          } else {
            r := ResourceStop();
          }
      }
    }
  }

  /** Promoting the peers of two lists is promoting those of the first, then those of the second. */
  lemma {:induction false} PromoteAllAppend(a: seq<string>, b: seq<string>, node: string)
    ensures PromoteAllPlan(a + b, node) == PromoteAllPlan(a, node) + PromoteAllPlan(b, node)
  {
    if |a| == 0 {
      assert a + b == b;
    } else {
      assert (a + b)[0] == a[0] && (a + b)[1..] == a[1..] + b;
      PromoteAllAppend(a[1..], b, node);
    }
  }

  lemma PromoteAllStep(peers: seq<string>, i: nat, node: string)
    requires i < |peers|
    ensures PromoteAllPlan(peers[..i + 1], node) ==
      PromoteAllPlan(peers[..i], node) + (if peers[i] != node then [WriteScore(peers[i], DEFAULT_SCORE)] else [])
  {
    PromoteAllAppend(peers[..i], [peers[i]], node);
    assert peers[..i] + [peers[i]] == peers[..i + 1];
    assert [peers[i]][1..] == [];
  }

  lemma PromoteAllRest(peers: seq<string>, i: nat, node: string)
    requires i <= |peers|
    ensures PromoteAllPlan(peers, node) == PromoteAllPlan(peers[..i], node) + PromoteAllPlan(peers[i..], node)
  {
    PromoteAllAppend(peers[..i], peers[i..], node);
    assert peers[..i] + peers[i..] == peers;
  }
}
