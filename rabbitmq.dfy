/**
 * The RabbitMQ agent (systemcloud/rabbitmq.py): the Erlang
 * `cluster_nodes` term built from the future active node list, the
 * configuration file it is written into, and the agent's validation.
 */
module Rabbitmq {
  import opened Strings
  import opened Wrappers
  import opened OcfExceptions
  import opened OcfEnviron
  import opened Sorting

  /** `'rabbit@<node>'`: the Erlang node name of each cluster node, quoted. */
  function ErlangNodes(unames: seq<string>): seq<string> {
    seq(|unames|, i requires 0 <= i < |unames| => "'rabbit@" + unames[i] + "'")
  }

  /** `{[<nodes>],disc}`: the cluster_nodes term. */
  function ClusterNodes(unames: seq<string>): (r: string)
    ensures |r| >= 9 && r[..2] == "{[" && r[|r| - 7..] == "],disc}"
    ensures |unames| == 0 <==> r == "{[],disc}"
  {
    "{[" + Join(",", ErlangNodes(unames)) + "],disc}"
  }

  /** The node name inside one quoted Erlang node name. */
  function Unquote(x: string): Option<string> {
    if |x| >= 9 && x[..8] == "'rabbit@" && x[|x| - 1] == '\'' then Some(x[8..|x| - 1]) else None
  }

  function UnquoteAll(xs: seq<string>): (r: Option<seq<string>>)
    ensures r.Some? ==> |r.value| == |xs|
  {
    if |xs| == 0 then Some([])
    else match (Unquote(xs[0]), UnquoteAll(xs[1..]))
      case (Some(x), Some(rest)) => Some([x] + rest)
      case _ => None
  }

  /** The node names a cluster_nodes term lists, if it is one. */
  function ParseClusterNodes(cn: string): Option<seq<string>> {
    if |cn| >= 9 && cn[..2] == "{[" && cn[|cn| - 7..] == "],disc}" then
      var inner := cn[2..|cn| - 7];
      if inner == "" then Some([]) else UnquoteAll(SplitOn(inner, ','))
    else None
  }

  lemma {:induction false} UnquoteAllErlangNodes(unames: seq<string>)
    ensures UnquoteAll(ErlangNodes(unames)) == Some(unames)
  {
    if |unames| > 0 {
      var q := "'rabbit@" + unames[0] + "'";
      assert q[..8] == "'rabbit@" && q[8..|q| - 1] == unames[0];
      assert ErlangNodes(unames)[1..] == ErlangNodes(unames[1..]);
      UnquoteAllErlangNodes(unames[1..]);
      assert [unames[0]] + unames[1..] == unames;
    }
  }

  /** The term names exactly the given nodes, in order, when no node name holds a comma. */
  lemma ClusterNodesRoundTrip(unames: seq<string>)
    requires forall i :: 0 <= i < |unames| ==> ',' !in unames[i]
    ensures ParseClusterNodes(ClusterNodes(unames)) == Some(unames)
  {
    var nodes := ErlangNodes(unames);
    var j := Join(",", nodes);
    var cn := ClusterNodes(unames);
    assert cn[..2] == "{[" && cn[|cn| - 7..] == "],disc}" && cn[2..|cn| - 7] == j;
    UnquoteAllErlangNodes(unames);
    if |unames| > 0 {
      forall i | 0 <= i < |nodes|
        ensures ',' !in nodes[i]
      {
        assert nodes[i] == "'rabbit@" + unames[i] + "'";
      }
      assert |j| > 0 by {
        assert |nodes[0]| >= 9;
        JoinLength(",", nodes);
      }
      SplitOnJoin(nodes, ',');
    } else {
      assert j == "";
    }
  }

  /** A join is at least as long as its first piece. */
  lemma JoinLength(sep: string, xs: seq<string>)
    requires |xs| > 0
    ensures |Join(sep, xs)| >= |xs[0]|
  {
  }

  /** `SERVER_START_ARGS="-rabbit cluster_nodes <term>"`. */
  function StartArgs(clusterNodes: string): string {
    "SERVER_START_ARGS=\"-rabbit cluster_nodes " + clusterNodes + "\"\n"
  }

  /** The lines `reconfigure` writes, `now` standing for the time of writing. */
  function ConfigLines(environ: Environ, now: string): (r: Result<seq<string>>)
    ensures r.Err? <==> Future(environ, Unames, ACTIVE).Err?
    ensures r.Ok? ==> |r.value| == 5 && r.value[4] == StartArgs(ClusterNodes(Future(environ, Unames, ACTIVE).value))
  {
    var active :- Future(environ, Unames, ACTIVE);
    Ok(["# Autogenerated by systemcloud - do not edit\n",
        "#\n",
        "# Last regenerated: " + now + "\n",
        "#\n",
        StartArgs(ClusterNodes(active))])
  }

  /**
   * The cluster is the future active set: a node being started is listed,
   * a node being stopped is not, and every node listed is active or starting.
   */
  lemma ClusterIsFutureActive(environ: Environ, x: string)
    requires Future(environ, Unames, ACTIVE).Ok?
    ensures var active := NotifyList(environ, Unames, "active").value;
      var start := NotifyList(environ, Unames, "start").value;
      var stop := NotifyList(environ, Unames, "stop").value;
      x in Future(environ, Unames, ACTIVE).value <==> (x in active || x in start) && x !in stop
  {
    var f := Future(environ, Unames, ACTIVE).value;
    ElementsIn(f);
    ElementsIn(NotifyList(environ, Unames, "active").value);
    ElementsIn(NotifyList(environ, Unames, "start").value);
    ElementsIn(NotifyList(environ, Unames, "stop").value);
  }

  /** The configured cluster names exactly the future active nodes, once each and sorted. */
  lemma ConfiguredClusterNodes(environ: Environ, now: string)
    requires ConfigLines(environ, now).Ok?
    requires forall x :: x in NotifyList(environ, Unames, "active").value ==> ',' !in x
    requires forall x :: x in NotifyList(environ, Unames, "start").value ==> ',' !in x
    ensures var f := Future(environ, Unames, ACTIVE).value;
      StrictlySorted(f) && ConfigLines(environ, now).value[4] == StartArgs(ClusterNodes(f)) &&
      ParseClusterNodes(ClusterNodes(f)) == Some(f)
  {
    var f := Future(environ, Unames, ACTIVE).value;
    forall i | 0 <= i < |f|
      ensures ',' !in f[i]
    {
      ClusterIsFutureActive(environ, f[i]);
    }
    ClusterNodesRoundTrip(f);
  }

  /** `action_validate`: notifications must be enabled; no master/slave checks. */
  function Validate(environ: Environ): (r: Result<Option<int>>)
    ensures r.Ok? <==> MetaBool(environ, "notify") == Some(true)
    ensures r.Ok? ==> r.value == Some(SUCCESS)
    ensures r.Err? ==> r.error == Raised(ConfiguredError, "Must have notifications enabled")
  {
    if MetaBool(environ, "notify") == Some(true) then Ok(Some(SUCCESS))
    else Err(Raised(ConfiguredError, "Must have notifications enabled"))
  }
}
