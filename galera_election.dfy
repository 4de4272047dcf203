/**
 * The Galera bootstrap election (`choose_bootstrap` in systemcloud/galera.py):
 * once every peer has reported its database state, pick the cluster UUID
 * and, among the peers on that UUID, the one with the highest commit
 * sequence number, node name breaking ties. Every node runs the election
 * on the same reports, so it must come out the same whatever the order
 * the peers are listed in.
 */
module GaleraElection {
  import opened Strings
  import opened Wrappers
  import opened OcfExceptions
  import opened GaleraState
  import opened Sorting

  /** One peer as the election sees it: its node name and its `state` attribute, None when unreported. */
  datatype Report = Report(node: string, state: Option<State>)

  /** Some peer has not reported a state yet. */
  predicate Unreported(reports: seq<Report>) {
    exists i :: 0 <= i < |reports| && reports[i].state.None?
  }

  /** Some peer reports a state with UUID `u`. */
  predicate Reported(reports: seq<Report>, u: string) {
    exists i :: 0 <= i < |reports| && reports[i].state.Some? && reports[i].state.value.uuid == u
  }

  lemma ReportedCons(reports: seq<Report>)
    requires |reports| > 0
    ensures forall u :: Reported(reports, u) <==>
      (reports[0].state.Some? && reports[0].state.value.uuid == u) || Reported(reports[1..], u)
  {
    forall u
      ensures Reported(reports, u) <==>
        (reports[0].state.Some? && reports[0].state.value.uuid == u) || Reported(reports[1..], u)
    {
      if Reported(reports[1..], u) {
        var j :| 0 <= j < |reports[1..]| && reports[1..][j].state.Some? && reports[1..][j].state.value.uuid == u;
        assert reports[j + 1] == reports[1..][j];
      }
      if Reported(reports, u) {
        var i :| 0 <= i < |reports| && reports[i].state.Some? && reports[i].state.value.uuid == u;
        if i > 0 {
          assert reports[1..][i - 1] == reports[i];
        }
      }
    }
  }

  /** The UUIDs reported, other than the zero UUID of a new database, in report order. */
  function NonZeroUuids(reports: seq<Report>): (r: seq<string>)
    ensures forall u :: u in r <==> u != ZERO_UUID && Reported(reports, u)
  {
    if |reports| == 0 then []
    else
      var rest := NonZeroUuids(reports[1..]);
      var p := reports[0];
      ReportedCons(reports);
      if p.state.Some? && p.state.value.uuid != ZERO_UUID then [p.state.value.uuid] + rest else rest
  }

  /** The raise of more than one non-zero UUID in a new cluster. */
  const MULTIPLE_UUIDS: Error := Raised(ConfiguredError, "Multiple UUIDs in new cluster")

  /** The distinct non-zero UUIDs: two of them differ exactly when the list has more than one. */
  lemma DistinctUuids(reports: seq<Report>)
    ensures var us := SortedSet(NonZeroUuids(reports));
      (forall u :: u in us <==> u != ZERO_UUID && Reported(reports, u)) &&
      (|us| > 1 ==> us[0] != us[1]) &&
      (|us| <= 1 ==> forall u, v :: u in us && v in us ==> u == v)
  {
    var us := SortedSet(NonZeroUuids(reports));
    ElementsIn(us);
    ElementsIn(NonZeroUuids(reports));
    if |us| > 1 {
      assert Less(us[0], us[1]);
      LessIrreflexive(us[0]);
    }
  }

  /**
   * The UUID the new cluster forms around: the recorded cluster UUID when
   * there is one; otherwise the single non-zero UUID reported, adopted even
   * when other peers report the zero UUID, or the zero UUID when no peer
   * has another; two different non-zero UUIDs raise.
   */
  function TargetUuid(reports: seq<Report>, cluster: Option<string>): (r: Result<string>)
    ensures cluster.Some? ==> r == Ok(cluster.value)
    ensures cluster.None? ==>
      (r.Err? <==> exists u, v :: u != v && u != ZERO_UUID && v != ZERO_UUID && Reported(reports, u) && Reported(reports, v))
    ensures r.Err? ==> r.error == MULTIPLE_UUIDS
    ensures cluster.None? && r.Ok? ==> r.value == ZERO_UUID || Reported(reports, r.value)
    ensures cluster.None? && r.Ok? ==> forall u :: u != ZERO_UUID && Reported(reports, u) ==> u == r.value
  {
    if cluster.Some? then Ok(cluster.value)
    else
      var us := SortedSet(NonZeroUuids(reports));
      DistinctUuids(reports);
      if |us| > 1 then
        assert us[0] in us && us[1] in us;
        Err(MULTIPLE_UUIDS)
      else if |us| == 1 then
        assert us[0] in us;
        Ok(us[0])
      else
        Ok(ZERO_UUID)
  }

  /** A peer whose reported state is on UUID `uuid`. */
  predicate MemberOf(p: Report, uuid: string) {
    p.state.Some? && p.state.value.uuid == uuid
  }

  /** `[x for x in peers if x.uuid == uuid]`. */
  function Members(reports: seq<Report>, uuid: string): (r: seq<Report>)
    ensures forall p :: p in r <==> p in reports && MemberOf(p, uuid)
    ensures forall i :: 0 <= i < |r| ==> MemberOf(r[i], uuid)
  {
    if |reports| == 0 then []
    else
      assert reports == [reports[0]] + reports[1..];
      (if MemberOf(reports[0], uuid) then [reports[0]] else []) + Members(reports[1..], uuid)
  }

  /** `(p.seqno, p.node) <= (q.seqno, q.node)`, Python's order on the election key. */
  predicate AtMost(p: Report, q: Report) {
    p.state.Some? && q.state.Some? &&
    (p.state.value.seqno < q.state.value.seqno ||
     (p.state.value.seqno == q.state.value.seqno && LessEq(p.node, q.node)))
  }

  lemma AtMostTransitive(p: Report, q: Report, s: Report)
    requires AtMost(p, q) && AtMost(q, s)
    ensures AtMost(p, s)
  {
    if p.state.value.seqno == q.state.value.seqno == s.state.value.seqno {
      LessEqTransitive(p.node, q.node, s.node);
    }
  }

  lemma AtMostTotal(p: Report, q: Report)
    requires p.state.Some? && q.state.Some?
    ensures AtMost(p, q) || AtMost(q, p)
  {
    LessTotal(p.node, q.node);
  }

  /** Two peers with equal keys have the same node name and sequence number. */
  lemma AtMostAntisymmetric(p: Report, q: Report)
    requires AtMost(p, q) && AtMost(q, p)
    ensures p.node == q.node && p.state.value.seqno == q.state.value.seqno
  {
    LessEqAntisymmetric(p.node, q.node);
  }

  /** A peer whose sequence number is the unknown -1. */
  predicate Unknown(p: Report) {
    p.state.Some? && !Truthy(p.state.value)
  }

  predicate AnyUnknown(ms: seq<Report>) {
    exists i :: 0 <= i < |ms| && Unknown(ms[i])
  }

  lemma AnyUnknownIff(ms: seq<Report>)
    ensures AnyUnknown(ms) <==> exists p :: p in ms && Unknown(p)
  {
    if exists p :: p in ms && Unknown(p) {
      var p :| p in ms && Unknown(p);
      var i :| 0 <= i < |ms| && ms[i] == p;
    }
  }

  /** `max(members, key=lambda x: (x.seqno, x.node))`. */
  function Best(ms: seq<Report>): (b: Report)
    requires |ms| > 0 && forall p :: p in ms ==> p.state.Some?
    ensures b in ms
    ensures forall p :: p in ms ==> AtMost(p, b)
  {
    if |ms| == 1 then
      LessEq0(ms[0].node);
      ms[0]
    else
      var rest := Best(ms[1..]);
      assert ms == [ms[0]] + ms[1..];
      AtMostTotal(rest, ms[0]);
      LessEq0(ms[0].node);
      if AtMost(rest, ms[0]) then
        assert forall p :: p in ms[1..] ==> AtMost(p, ms[0]) by {
          forall p | p in ms[1..] ensures AtMost(p, ms[0]) {
            AtMostTransitive(p, rest, ms[0]);
          }
        }
        ms[0]
      else
        rest
  }

  lemma LessEq0(s: string)
    ensures LessEq(s, s)
  {
  }

  /** The message the election evidently intends to raise with when no peer is on the target UUID. */
  function NoPeersMessage(uuid: string): string {
    "No peers match cluster UUID " + uuid
  }

  /**
   * The message as written, the one the election raises with: the format
   * string and the UUID are passed as two exception arguments, and an OCF
   * error defines no `__str__`, so `str(e)` is the repr of the tuple.
   */
  function NoPeersMessageAsWritten(uuid: string): (m: string)
    ensures |m| > 0 && m[0] == '(' && '\n' !in m
  {
    var head := "('No peers match cluster UUID %s', ";
    NotInConcat('\n', head, PyRepr(uuid));
    NotInConcat('\n', head + PyRepr(uuid), ")");
    head + PyRepr(uuid) + ")"
  }

  /** For a UUID of hex digits, hyphens and braces the tuple repr shows it between single quotes. */
  lemma NoPeersMessageOfUuid(uuid: string)
    requires forall i :: 0 <= i < |uuid| ==> Printable(uuid[i]) && uuid[i] != '\'' && uuid[i] != '"' && uuid[i] != '\\'
    ensures NoPeersMessageAsWritten(uuid) == "('No peers match cluster UUID %s', '" + uuid + "')"
  {
    ReprPlain(uuid);
  }

  /** As written, the exit reason shows the format string with `%s` unfilled and the UUID quoted in a tuple. */
  lemma NoPeersReasonAsWritten(uuid: string)
    requires '\n' !in uuid
    ensures ReasonLine(NoPeersMessageAsWritten(uuid)) == "ocf-exit-reason:" + NoPeersMessageAsWritten(uuid) + "\n"
    ensures ReasonLine(NoPeersMessageAsWritten(uuid)) != ReasonLine(NoPeersMessage(uuid))
  {
    ReasonDiffers(NoPeersMessageAsWritten(uuid), uuid);
  }

  lemma ReasonDiffers(written: string, uuid: string)
    requires |written| > 0 && written[0] == '(' && '\n' !in written && '\n' !in uuid
    ensures ReasonLine(written) == "ocf-exit-reason:" + written + "\n"
    ensures ReasonLine(written) != ReasonLine(NoPeersMessage(uuid))
  {
    NoPeersOneLine(uuid);
    ReasonLineOfOneLine(written);
    ReasonLineOfOneLine(NoPeersMessage(uuid));
    ReasonLinesDiffer(written, NoPeersMessage(uuid));
  }

  /** The intended message is one line, starting with its fixed text. */
  lemma NoPeersOneLine(uuid: string)
    requires '\n' !in uuid
    ensures var m := NoPeersMessage(uuid); |m| > 0 && m[0] == 'N' && '\n' !in m
  {
    var m := NoPeersMessage(uuid);
    assert forall i :: 0 <= i < |m| ==> m[i] != '\n' by {
      forall i | 0 <= i < |m| ensures m[i] != '\n' {
        if 28 <= i {
          assert m[i] == uuid[i - 28];
        }
      }
    }
  }

  lemma NotInConcat(c: char, a: string, b: string)
    requires c !in a && c !in b
    ensures c !in a + b
  {
  }

  lemma ReasonLinesDiffer(written: string, intended: string)
    requires |written| > 0 && |intended| > 0 && written[0] == '(' && intended[0] == 'N'
    ensures "ocf-exit-reason:" + written + "\n" != "ocf-exit-reason:" + intended + "\n"
  {
    var got := "ocf-exit-reason:" + written + "\n";
    var want := "ocf-exit-reason:" + intended + "\n";
    assert got[16] == written[0] && want[16] == intended[0];
  }

  /** Intended: the exit reason names the UUID no peer is on. */
  lemma NoPeersReason(uuid: string)
    requires '\n' !in uuid
    ensures ReasonLine(NoPeersMessage(uuid)) == "ocf-exit-reason:No peers match cluster UUID " + uuid + "\n"
  {
    NoPeersOneLine(uuid);
    ReasonLineOfOneLine(NoPeersMessage(uuid));
  }

  /**
   * `choose_bootstrap`: the node to bootstrap from, None to keep waiting.
   * Waits while any peer is unreported; on a non-zero UUID also while any
   * peer on it has the unknown sequence number -1.
   */
  function ChooseBootstrap(reports: seq<Report>, cluster: Option<string>): (r: Result<Option<string>>)
    ensures Unreported(reports) ==> r == Ok(None)
    ensures r.Err? ==> !Unreported(reports) && (r.error == MULTIPLE_UUIDS || (r.error.Raised? && r.error.cls == ConfiguredError))
  {
    if Unreported(reports) then Ok(None)
    else
      var uuid :- TargetUuid(reports, cluster);
      var members := Members(reports, uuid);
      if |members| == 0 then Err(Raised(ConfiguredError, NoPeersMessageAsWritten(uuid)))
      else if uuid != ZERO_UUID && AnyUnknown(members) then Ok(None)
      else Ok(Some(Best(members).node))
  }

  /** No peer on the target UUID is a configuration error whose message is the tuple repr with that UUID. */
  lemma NoMatchingPeer(reports: seq<Report>, cluster: Option<string>)
    requires !Unreported(reports) && TargetUuid(reports, cluster).Ok?
    requires forall p :: p in reports ==> !MemberOf(p, TargetUuid(reports, cluster).value)
    ensures ChooseBootstrap(reports, cluster) == Err(Raised(ConfiguredError, NoPeersMessageAsWritten(TargetUuid(reports, cluster).value)))
  {
  }

  /**
   * The elected node is on the target UUID and its (seqno, node) is the
   * greatest of all peers on it; on a non-zero UUID every such peer knows its
   * sequence number.
   */
  lemma ElectedIsMaximal(reports: seq<Report>, cluster: Option<string>, n: string)
    requires ChooseBootstrap(reports, cluster) == Ok(Some(n))
    ensures !Unreported(reports) && TargetUuid(reports, cluster).Ok?
    ensures var u := TargetUuid(reports, cluster).value;
      exists p :: p in reports && MemberOf(p, u) && p.node == n &&
        forall q :: q in reports && MemberOf(q, u) ==> AtMost(q, p) && (u != ZERO_UUID ==> Truthy(q.state.value))
  {
    var u := TargetUuid(reports, cluster).value;
    var members := Members(reports, u);
    var b := Best(members);
    assert b in reports && MemberOf(b, u) && b.node == n;
    forall q | q in reports && MemberOf(q, u)
      ensures AtMost(q, b) && (u != ZERO_UUID ==> Truthy(q.state.value))
    {
      assert q in members;
    }
  }

  /**
   * Once every peer has reported and some peer is on the target UUID, the
   * election waits exactly when that UUID is non-zero and a peer on it has
   * the unknown sequence number -1.
   */
  lemma WaitsForUnknown(reports: seq<Report>, cluster: Option<string>)
    requires !Unreported(reports) && TargetUuid(reports, cluster).Ok?
    requires exists p :: p in reports && MemberOf(p, TargetUuid(reports, cluster).value)
    ensures var u := TargetUuid(reports, cluster).value;
      ChooseBootstrap(reports, cluster) == Ok(None) <==>
        u != ZERO_UUID && exists p :: p in reports && MemberOf(p, u) && !Truthy(p.state.value)
  {
    var u := TargetUuid(reports, cluster).value;
    var ms := Members(reports, u);
    var p :| p in reports && MemberOf(p, u);
    assert p in ms;
    AnyUnknownIff(ms);
  }

  /**
   * Once every peer has reported, the target UUID is readable, some peer is
   * on it and nobody on a non-zero UUID has the unknown sequence number, a
   * node is elected: the best of the peers on that UUID.
   */
  lemma ElectsWhenNotWaiting(reports: seq<Report>, cluster: Option<string>)
    requires !Unreported(reports) && TargetUuid(reports, cluster).Ok?
    requires exists p :: p in reports && MemberOf(p, TargetUuid(reports, cluster).value)
    requires var u := TargetUuid(reports, cluster).value;
      u == ZERO_UUID || forall p :: p in reports && MemberOf(p, u) ==> Truthy(p.state.value)
    ensures var ms := Members(reports, TargetUuid(reports, cluster).value);
      |ms| > 0 && ChooseBootstrap(reports, cluster) == Ok(Some(Best(ms).node))
  {
    var u := TargetUuid(reports, cluster).value;
    var ms := Members(reports, u);
    var p :| p in reports && MemberOf(p, u);
    assert p in ms;
    WaitsForUnknown(reports, cluster);
  }

  /** Once every peer has reported, a UUID conflict is the election's result. */
  lemma TargetErrPropagates(reports: seq<Report>, cluster: Option<string>)
    requires !Unreported(reports) && TargetUuid(reports, cluster).Err?
    ensures ChooseBootstrap(reports, cluster) == Err(MULTIPLE_UUIDS)
  {
  }

  lemma UnreportedIff(reports: seq<Report>)
    ensures Unreported(reports) <==> exists p :: p in reports && p.state.None?
  {
    if exists p :: p in reports && p.state.None? {
      var p :| p in reports && p.state.None?;
      var i :| 0 <= i < |reports| && reports[i] == p;
    }
  }

  lemma ReportedIff(reports: seq<Report>, u: string)
    ensures Reported(reports, u) <==> exists p :: p in reports && MemberOf(p, u)
  {
    if exists p :: p in reports && MemberOf(p, u) {
      var p :| p in reports && MemberOf(p, u);
      var i :| 0 <= i < |reports| && reports[i] == p;
    }
    if Reported(reports, u) {
      var i :| 0 <= i < |reports| && reports[i].state.Some? && reports[i].state.value.uuid == u;
      assert reports[i] in reports && MemberOf(reports[i], u);
    }
  }

  /** The target UUID depends only on which reports there are. */
  lemma TargetUuidConverges(a: seq<Report>, b: seq<Report>, cluster: Option<string>)
    requires forall p :: p in a <==> p in b
    ensures TargetUuid(a, cluster) == TargetUuid(b, cluster)
  {
    forall u
      ensures Reported(a, u) <==> Reported(b, u)
    {
      ReportedIff(a, u);
      ReportedIff(b, u);
    }
  }

  /** Electing the best of two lists with the same members picks the same node. */
  lemma BestConverges(ma: seq<Report>, mb: seq<Report>)
    requires |ma| > 0 && forall p :: p in ma ==> p.state.Some?
    requires forall p :: p in ma <==> p in mb
    ensures |mb| > 0 && Best(ma).node == Best(mb).node
  {
    assert ma[0] in mb;
    var x := Best(ma);
    var y := Best(mb);
    assert AtMost(x, y) && AtMost(y, x);
    AtMostAntisymmetric(x, y);
  }

  /**
   * Convergence: the election depends only on the set of reports and the
   * cluster UUID, not on the order the peers are listed in or on repeats,
   * so every node that runs it on the same reports picks the same node.
   */
  lemma Convergence(a: seq<Report>, b: seq<Report>, cluster: Option<string>)
    requires forall p :: p in a <==> p in b
    ensures ChooseBootstrap(a, cluster) == ChooseBootstrap(b, cluster)
  {
    UnreportedIff(a);
    UnreportedIff(b);
    if !Unreported(a) {
      TargetUuidConverges(a, b, cluster);
      var t := TargetUuid(a, cluster);
      if t.Ok? {
        var ma := Members(a, t.value);
        var mb := Members(b, t.value);
        assert forall p :: p in ma <==> p in mb;
        AnyUnknownIff(ma);
        AnyUnknownIff(mb);
        if |ma| > 0 {
          BestConverges(ma, mb);
        }
      }
    }
  }

  /** A single non-zero UUID reported beside zero UUIDs is adopted, and only its peers stand. */
  lemma AdoptsSingleNonZeroUuid(reports: seq<Report>, x: string)
    requires !Unreported(reports) && x != ZERO_UUID && Reported(reports, x)
    requires forall i :: 0 <= i < |reports| ==> reports[i].state.value.uuid in {ZERO_UUID, x}
    ensures TargetUuid(reports, None) == Ok(x)
    ensures forall n :: ChooseBootstrap(reports, None) == Ok(Some(n)) ==>
      exists i :: 0 <= i < |reports| && reports[i].node == n && reports[i].state.value.uuid == x
  {
    forall n | ChooseBootstrap(reports, None) == Ok(Some(n))
      ensures exists i :: 0 <= i < |reports| && reports[i].node == n && reports[i].state.value.uuid == x
    {
      ElectedIsMaximal(reports, None, n);
      var p :| p in reports && MemberOf(p, x) && p.node == n;
      var i :| 0 <= i < |reports| && reports[i] == p;
    }
  }

  /** The tie-break: equal sequence numbers go to the greater node name. */
  lemma TieGoesToGreaterNode(u: string, seqno: int)
    requires u != ZERO_UUID && seqno != -1
    ensures ChooseBootstrap([Report("a", Some(State(u, seqno))), Report("b", Some(State(u, seqno)))], Some(u)) == Ok(Some("b"))
  {
    var p, q := Report("a", Some(State(u, seqno))), Report("b", Some(State(u, seqno)));
    ElectsBestOfTwo(p, q, u);
    assert Less("a", "b");
    var b := Best([p, q]);
    assert AtMost([p, q][1], b);
    if b == p {
      LessAsymmetric("a", "b");
    }
  }

  /** Two known peers on a non-zero cluster UUID: the election picks the greater of them. */
  lemma ElectsBestOfTwo(p: Report, q: Report, u: string)
    requires u != ZERO_UUID && MemberOf(p, u) && MemberOf(q, u) && !Unknown(p) && !Unknown(q)
    ensures ChooseBootstrap([p, q], Some(u)) == Ok(Some(Best([p, q]).node))
  {
    var rs := [p, q];
    assert rs[1..] == [q] && [q][1..] == [];
    assert Members([q], u) == [q] + Members([], u);
    assert Members(rs, u) == [p] + Members([q], u);
  }

  /** The highest sequence number wins over node names. */
  lemma HighestSeqnoWins(u: string)
    requires u != ZERO_UUID
    ensures ChooseBootstrap([Report("b", Some(State(u, 10))), Report("a", Some(State(u, 12)))], Some(u)) == Ok(Some("a"))
  {
    var p, q := Report("b", Some(State(u, 10))), Report("a", Some(State(u, 12)));
    ElectsBestOfTwo(p, q, u);
    var b := Best([p, q]);
    assert AtMost([p, q][1], b);
  }
}
