/**
 * Cluster attributes declared on an agent class (ocf/attribute.py): their
 * full names and node scoping, and the per-agent cache through which the
 * agent reads (read-through) and writes (write-through) the cluster
 * information base.
 */
module OcfAttribute {
  import opened Wrappers
  import opened OcfExceptions
  import opened OcfTypes
  import opened Crm
  import opened OcfEnviron

  /** How the full name is formed from the attribute's name and the agent's instance. */
  datatype Naming = Plain | InstanceName | NameInstance

  /** Cluster-wide, or per node with a lifetime passed to `crm_attribute`. */
  datatype Scope = ClusterWide | PerNode(lifetime: string)

  /** An attribute descriptor: one of the classes of ocf/attribute.py with its arguments. */
  datatype Attribute = Attribute(name: string, t: OcfType, default: Option<Value>, naming: Naming, scope: Scope)

  /** The lifetime a NodeAttribute has unless it is given one. */
  const DEFAULT_LIFETIME: string := "forever"

  function PlainAttribute(name: string, t: OcfType, default: Option<Value>): Attribute {
    Attribute(name, t, default, Plain, ClusterWide)
  }

  function NodeAttribute(name: string, t: OcfType, default: Option<Value>, lifetime: string): Attribute {
    Attribute(name, t, default, Plain, PerNode(lifetime))
  }

  function InstanceNameAttribute(name: string, t: OcfType, default: Option<Value>): Attribute {
    Attribute(name, t, default, InstanceName, ClusterWide)
  }

  function NameInstanceAttribute(name: string, t: OcfType, default: Option<Value>): Attribute {
    Attribute(name, t, default, NameInstance, ClusterWide)
  }

  function NodeInstanceNameAttribute(name: string, t: OcfType, default: Option<Value>, lifetime: string): Attribute {
    Attribute(name, t, default, InstanceName, PerNode(lifetime))
  }

  function NodeNameInstanceAttribute(name: string, t: OcfType, default: Option<Value>, lifetime: string): Attribute {
    Attribute(name, t, default, NameInstance, PerNode(lifetime))
  }

  /** `attribute_name(agent)`: the name, `<instance>-<name>` or `<name>-<instance>`. */
  function AttributeName(a: Attribute, instance: Option<string>): string {
    match a.naming
    case Plain => a.name
    case InstanceName => PyStr(instance) + "-" + a.name
    case NameInstance => a.name + "-" + PyStr(instance)
  }

  /** The key the agent's get, set and delete pass to the store: per-node attributes add the node and lifetime. */
  function Key(a: Attribute, node: Option<string>, instance: Option<string>): (k: StoreKey)
    ensures k.name == AttributeName(a, instance)
    ensures a.scope.PerNode? ==> k.node == node && k.lifetime == Some(a.scope.lifetime)
    ensures a.scope.ClusterWide? ==> k.node.None? && k.lifetime.None?
  {
    match a.scope
    case ClusterWide => StoreKey(AttributeName(a, instance), None, None)
    case PerNode(lifetime) => StoreKey(AttributeName(a, instance), node, Some(lifetime))
  }

  /** Under one naming scheme, attributes with different names never share a store key. */
  lemma KeysDistinguishNames(a: Attribute, b: Attribute, node: Option<string>, instance: Option<string>)
    requires a.naming == b.naming && a.name != b.name
    ensures Key(a, node, instance) != Key(b, node, instance)
  {
    var x, y := AttributeName(a, instance), AttributeName(b, instance);
    if a.naming == InstanceName {
      var p := PyStr(instance) + "-";
      assert x[|p|..] == a.name && y[|p|..] == b.name;
    } else if a.naming == NameInstance {
      var q := "-" + PyStr(instance);
      assert x[..|x| - |q|] == a.name && y[..|y| - |q|] == b.name;
    }
  }


  /** An agent's `attribute_cache`, keyed by descriptor. */
  class AttributeCache {
    var entries: map<Attribute, Option<Value>>

    constructor()
      ensures entries == map[]
    {
      entries := map[];
    }
  }

  /** The agent's cache together with the store it fronts. */
  datatype View = View(entries: map<Attribute, Option<Value>>, attrs: map<StoreKey, string>)

  /** `__get__`: the cached value, or a query that is cached when it succeeds. */
  function GetStep(v: View, failures: map<StoreKey, Completed>, a: Attribute, node: Option<string>, instance: Option<string>)
    : (r: (Result<Option<Value>>, View))
    ensures r.1.attrs == v.attrs && r.1.entries - {a} == v.entries - {a}
    ensures a in v.entries ==> r.0 == Ok(v.entries[a]) && r.1 == v
    ensures r.0.Ok? ==> a in r.1.entries && r.1.entries[a] == r.0.value
    ensures r.0.Err? ==> r.1 == v
  {
    if a in v.entries then (Ok(v.entries[a]), v)
    else
      var q := QueryResult(v.attrs, failures, Key(a, node, instance), a.t, a.default);
      if q.Ok? then (q, View(v.entries[a := q.value], v.attrs)) else (q, v)
  }

  /** `__set__`: drop the cached entry, update the store, then cache the value written. */
  function SetStep(v: View, failures: map<StoreKey, Completed>, a: Attribute, node: Option<string>, instance: Option<string>,
                   x: Value): (r: (Result<()>, View))
    ensures r.1.entries - {a} == v.entries - {a}
    ensures a in r.1.entries <==> r.0.Ok?
    ensures a in r.1.entries ==> r.1.entries[a] == Some(x)
    ensures r.0.Ok? ==> Key(a, node, instance) !in failures || failures[Key(a, node, instance)].rc in {SUCCESS, ERR_CONFIGURED}
  {
    var key := Key(a, node, instance);
    var out := WriteOutcome(failures, key);
    var popped := v.entries - {a};
    (out, View(if out.Ok? then popped[a := Some(x)] else popped, UpdateEffect(v.attrs, failures, key, x)))
  }

  /** `__delete__`: drop the cached entry, delete from the store, then cache None. */
  function DeleteStep(v: View, failures: map<StoreKey, Completed>, a: Attribute, node: Option<string>, instance: Option<string>)
    : (r: (Result<()>, View))
    ensures r.1.entries - {a} == v.entries - {a}
    ensures a in r.1.entries <==> r.0.Ok?
    ensures a in r.1.entries ==> r.1.entries[a] == None
    ensures r.0.Ok? ==> Key(a, node, instance) !in failures || failures[Key(a, node, instance)].rc in {SUCCESS, ERR_CONFIGURED}
  {
    var key := Key(a, node, instance);
    var out := WriteOutcome(failures, key);
    var popped := v.entries - {a};
    (out, View(if out.Ok? then popped[a := None] else popped, DeleteEffect(v.attrs, failures, key)))
  }

  /** Read attribute `a` of the agent on `node` with instance `instance`. */
  method Get(cache: AttributeCache, cib: Cib, a: Attribute, node: Option<string>, instance: Option<string>)
    returns (r: Result<Option<Value>>)
    modifies cache, cib
    ensures (r, View(cache.entries, cib.attrs)) == GetStep(View(old(cache.entries), old(cib.attrs)), cib.failures, a, node, instance)
  {
    if a in cache.entries {
      r := Ok(cache.entries[a]);
    } else {
      r := Query(cib, Key(a, node, instance), a.t, a.default);
      if r.Ok? {
        cache.entries := cache.entries[a := r.value];
      }
    }
  }

  /** Write attribute `a`. */
  method Set(cache: AttributeCache, cib: Cib, a: Attribute, node: Option<string>, instance: Option<string>, x: Value)
    returns (r: Result<()>)
    requires cib.Valid()
    modifies cache, cib
    ensures (r, View(cache.entries, cib.attrs)) == SetStep(View(old(cache.entries), old(cib.attrs)), cib.failures, a, node, instance, x)
  {
    cache.entries := cache.entries - {a};
    r := Update(cib, Key(a, node, instance), x);
    if r.Ok? {
      cache.entries := cache.entries[a := Some(x)];
    }
  }

  /** Delete attribute `a`. */
  method Delete(cache: AttributeCache, cib: Cib, a: Attribute, node: Option<string>, instance: Option<string>)
    returns (r: Result<()>)
    requires cib.Valid()
    modifies cache, cib
    ensures (r, View(cache.entries, cib.attrs)) == DeleteStep(View(old(cache.entries), old(cib.attrs)), cib.failures, a, node, instance)
  {
    cache.entries := cache.entries - {a};
    r := Crm.Delete(cib, Key(a, node, instance));
    if r.Ok? {
      cache.entries := cache.entries[a := None];
    }
  }

  /** The first get queries the store with the attribute's type and default; a second get is served from the cache. */
  lemma GetQueriesOnce(v: View, failures: map<StoreKey, Completed>, a: Attribute, node: Option<string>, instance: Option<string>)
    requires a !in v.entries
    ensures var (r, v1) := GetStep(v, failures, a, node, instance);
      r == QueryResult(v.attrs, failures, Key(a, node, instance), a.t, a.default) && v1.attrs == v.attrs &&
      (r.Ok? ==> GetStep(v1, failures, a, node, instance) == (r, v1))
  {
  }

  /** Read-your-writes: after a successful set, a get returns exactly the value written. */
  lemma SetThenGet(v: View, failures: map<StoreKey, Completed>, a: Attribute, node: Option<string>, instance: Option<string>,
                   x: Value)
    requires SetStep(v, failures, a, node, instance, x).0.Ok?
    ensures var v1 := SetStep(v, failures, a, node, instance, x).1;
      GetStep(v1, failures, a, node, instance) == (Ok(Some(x)), v1)
  {
  }

  /** After a successful delete the agent reads None, not the default. */
  lemma DeleteThenGet(v: View, failures: map<StoreKey, Completed>, a: Attribute, node: Option<string>, instance: Option<string>)
    requires DeleteStep(v, failures, a, node, instance).0.Ok?
    ensures var v1 := DeleteStep(v, failures, a, node, instance).1;
      GetStep(v1, failures, a, node, instance) == (Ok(None), v1)
  {
  }

  /** An agent with an empty cache reads the default after the same delete. */
  lemma DeleteThenFreshGet(v: View, failures: map<StoreKey, Completed>, a: Attribute, node: Option<string>, instance: Option<string>)
    requires Key(a, node, instance) !in failures
    ensures var v1 := DeleteStep(v, failures, a, node, instance).1;
      GetStep(View(map[], v1.attrs), failures, a, node, instance).0 == Ok(a.default)
  {
    DeleteThenQuery(v.attrs, failures, Key(a, node, instance), a.t, a.default);
  }

  /** A failed set or delete leaves no entry, so the next get queries the store again. */
  lemma FailedWriteEvicts(v: View, failures: map<StoreKey, Completed>, a: Attribute, node: Option<string>, instance: Option<string>,
                          x: Value)
    requires Key(a, node, instance) in failures
    requires SetStep(v, failures, a, node, instance, x).0.Err?
    ensures var v1 := SetStep(v, failures, a, node, instance, x).1;
      a !in v1.entries && v1.attrs == v.attrs
    ensures var v2 := DeleteStep(v, failures, a, node, instance).1;
      a !in v2.entries && v2.attrs == v.attrs
  {
    FailedWritesChangeNothing(v.attrs, failures, Key(a, node, instance), x);
  }

  /** Distinct attributes never share a cache entry: a step on one leaves the others' entries alone. */
  lemma AttributesIndependent(v: View, failures: map<StoreKey, Completed>, a: Attribute, b: Attribute,
                              node: Option<string>, instance: Option<string>, x: Value)
    requires a != b
    ensures var e := GetStep(v, failures, a, node, instance).1.entries;
      (b in e <==> b in v.entries) && (b in v.entries ==> e[b] == v.entries[b])
    ensures var e := SetStep(v, failures, a, node, instance, x).1.entries;
      (b in e <==> b in v.entries) && (b in v.entries ==> e[b] == v.entries[b])
    ensures var e := DeleteStep(v, failures, a, node, instance).1.entries;
      (b in e <==> b in v.entries) && (b in v.entries ==> e[b] == v.entries[b])
  {
  }

  /** Every cached entry is what a query of the store would return now. */
  predicate Coherent(v: View, failures: map<StoreKey, Completed>, node: Option<string>, instance: Option<string>) {
    forall b :: b in v.entries ==> QueryResult(v.attrs, failures, Key(b, node, instance), b.t, b.default) == Ok(v.entries[b])
  }

  /** No other cached attribute is stored under the key of `a`. */
  predicate KeyUnshared(v: View, a: Attribute, node: Option<string>, instance: Option<string>) {
    forall b :: b in v.entries && b != a ==> Key(b, node, instance) != Key(a, node, instance)
  }

  /** A write whose failure, if any, is reported as one (not as ERR_CONFIGURED). */
  predicate WriteReportsFailure(failures: map<StoreKey, Completed>, key: StoreKey) {
    key in failures ==> failures[key].rc != SUCCESS && failures[key].rc != ERR_CONFIGURED
  }

  /** A query reads its own key only. */
  lemma QueryResultLocal(attrs1: map<StoreKey, string>, attrs2: map<StoreKey, string>, failures: map<StoreKey, Completed>,
                         key: StoreKey, t: OcfType, default: Option<Value>)
    requires key in attrs1 <==> key in attrs2
    requires key in attrs1 ==> attrs1[key] == attrs2[key]
    ensures QueryResult(attrs1, failures, key, t, default) == QueryResult(attrs2, failures, key, t, default)
  {
    ParseCommandLineInverse(key, QueryOp);
  }

  lemma GetKeepsCoherence(v: View, failures: map<StoreKey, Completed>, a: Attribute, node: Option<string>, instance: Option<string>)
    requires Coherent(v, failures, node, instance)
    ensures Coherent(GetStep(v, failures, a, node, instance).1, failures, node, instance)
  {
  }

  /** Set keeps the cache coherent when the value survives the store and no other entry shares its key. */
  lemma SetKeepsCoherence(v: View, failures: map<StoreKey, Completed>, a: Attribute, node: Option<string>, instance: Option<string>,
                          x: Value)
    requires Coherent(v, failures, node, instance) && KeyUnshared(v, a, node, instance)
    requires WriteReportsFailure(failures, Key(a, node, instance))
    requires RoundTrips(x) && TypeOf(x) == a.t
    ensures Coherent(SetStep(v, failures, a, node, instance, x).1, failures, node, instance)
  {
    var key := Key(a, node, instance);
    var v1 := SetStep(v, failures, a, node, instance, x).1;
    forall b | b in v1.entries
      ensures QueryResult(v1.attrs, failures, Key(b, node, instance), b.t, b.default) == Ok(v1.entries[b])
    {
      if b == a {
        UpdateThenQuery(v.attrs, failures, key, x, a.default);
      } else {
        WritesAreLocal(v.attrs, failures, key, Key(b, node, instance), x);
        QueryResultLocal(v.attrs, v1.attrs, failures, Key(b, node, instance), b.t, b.default);
      }
    }
  }

  /** Delete keeps the cache coherent only for an attribute whose default is None. */
  lemma DeleteKeepsCoherence(v: View, failures: map<StoreKey, Completed>, a: Attribute, node: Option<string>, instance: Option<string>)
    requires Coherent(v, failures, node, instance) && KeyUnshared(v, a, node, instance)
    requires WriteReportsFailure(failures, Key(a, node, instance))
    requires a.default == None
    ensures Coherent(DeleteStep(v, failures, a, node, instance).1, failures, node, instance)
  {
    var key := Key(a, node, instance);
    var v1 := DeleteStep(v, failures, a, node, instance).1;
    forall b | b in v1.entries
      ensures QueryResult(v1.attrs, failures, Key(b, node, instance), b.t, b.default) == Ok(v1.entries[b])
    {
      if b == a {
        DeleteThenQuery(v.attrs, failures, key, a.t, a.default);
      } else {
        WritesAreLocal(v.attrs, failures, key, Key(b, node, instance), PlainValue());
        QueryResultLocal(v.attrs, v1.attrs, failures, Key(b, node, instance), b.t, b.default);
      }
    }
  }

  /** Any value, for the frame lemma that is stated for updates and deletes together. */
  function PlainValue(): Value {
    StrValue("")
  }

  /** With a non-None default, a delete makes the cache disagree with the store. */
  lemma DeleteWithDefaultIncoherent(v: View, failures: map<StoreKey, Completed>, a: Attribute, node: Option<string>,
                                    instance: Option<string>)
    requires Key(a, node, instance) !in failures && a.default.Some?
    ensures !Coherent(DeleteStep(v, failures, a, node, instance).1, failures, node, instance)
  {
    var key := Key(a, node, instance);
    var v1 := DeleteStep(v, failures, a, node, instance).1;
    DeleteThenQuery(v.attrs, failures, key, a.t, a.default);
    assert a in v1.entries && v1.entries[a] == None;
  }
}
