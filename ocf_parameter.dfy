/**
 * Resource parameters declared on an agent class (ocf/parameter.py): read
 * from the environment on first access and memoised in the agent's
 * parameter cache.
 */
module OcfParameter {
  import opened Wrappers
  import opened OcfExceptions
  import opened OcfTypes
  import opened OcfEnviron

  /** `Parameter(name, type, default)`. */
  datatype Parameter = Parameter(name: string, t: OcfType, default: Option<Value>)

  /** The result of one access, and the cache after it. */
  datatype Access = Access(result: Result<Option<Value>>, entries: map<Parameter, Option<Value>>)

  /** `Parameter.__get__`: a cached value if there is one, else `agent.param(...)`, cached only when it did not raise. */
  function Lookup(entries: map<Parameter, Option<Value>>, environ: Environ, p: Parameter): (r: Access)
    ensures r.entries - {p} == entries - {p}
    ensures p in entries ==> r == Access(Ok(entries[p]), entries)
    ensures r.result.Ok? ==> p in r.entries && r.entries[p] == r.result.value
    ensures r.result.Err? ==> r.entries == entries
  {
    if p in entries then Access(Ok(entries[p]), entries)
    else
      match Param(environ, p.name, p.t, p.default)
      case Ok(v) => Access(Ok(v), entries[p := v])
      case Err(e) => Access(Err(e), entries)
  }

  /** An agent's `parameter_cache`. */
  class ParameterCache {
    var entries: map<Parameter, Option<Value>>

    constructor()
      ensures entries == map[]
    {
      entries := map[];
    }

    /** Access parameter `p` of an agent whose environment is `environ`. */
    method Get(environ: Environ, p: Parameter) returns (r: Result<Option<Value>>)
      modifies this
      ensures Access(r, entries) == Lookup(old(entries), environ, p)
    {
      if p in entries {
        r := Ok(entries[p]);
      } else {
        r := Param(environ, p.name, p.t, p.default);
        if r.Ok? {
          entries := entries[p := r.value];
        }
      }
    }
  }

  /** The first access reads the environment through `param`. */
  lemma FirstAccessReadsEnvironment(entries: map<Parameter, Option<Value>>, environ: Environ, p: Parameter)
    requires p !in entries
    ensures Lookup(entries, environ, p).result == Param(environ, p.name, p.t, p.default)
    ensures Lookup(entries, environ, p).result.Ok? ==> Lookup(entries, environ, p).entries[p] == Lookup(entries, environ, p).result.value
  {
  }

  /** Once read, a parameter keeps its value even if the environment changes. */
  lemma Memoised(entries: map<Parameter, Option<Value>>, environ: Environ, later: Environ, p: Parameter)
    requires Lookup(entries, environ, p).result.Ok?
    ensures var first := Lookup(entries, environ, p);
      Lookup(first.entries, later, p) == first
  {
  }

  /** A failed read caches nothing, so the next access reads the environment again. */
  lemma FailureNotCached(entries: map<Parameter, Option<Value>>, environ: Environ, p: Parameter)
    requires Lookup(entries, environ, p).result.Err?
    ensures Lookup(entries, environ, p).entries == entries && p !in entries
  {
  }

  /** Accessing one parameter leaves every other parameter's entry as it was. */
  lemma ParametersIndependent(entries: map<Parameter, Option<Value>>, environ: Environ, p: Parameter, q: Parameter)
    requires q != p
    ensures var after := Lookup(entries, environ, p).entries;
      (q in after <==> q in entries) && (q in entries ==> after[q] == entries[q])
  {
  }
}
