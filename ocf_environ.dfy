/**
 * What an OCF resource agent reads from its environment (ocf/agent.py):
 * the instance name, resource parameters `OCF_RESKEY_<name>`, meta
 * parameters `OCF_RESKEY_CRM_meta_<name>`, and the notification lists
 * with the membership algebra built on them.
 */
module OcfEnviron {
  import opened Strings
  import opened Wrappers
  import opened OcfExceptions
  import opened OcfTypes
  import opened Sorting

  /** The process environment. */
  type Environ = map<string, string>

  const INSTANCE_VARIABLE: string := "OCF_RESOURCE_INSTANCE"

  /** `'%s' % x` for a string that may be None. */
  function PyStr(x: Option<string>): string {
    if x.Some? then x.value else "None"
  }

  /** `instance`: the resource instance name before the first ':' (a clone number may follow it). */
  function Instance(environ: Environ): (r: Option<string>)
    ensures r.None? <==> INSTANCE_VARIABLE !in environ
    ensures r.Some? ==>
      var full := environ[INSTANCE_VARIABLE];
      ':' !in r.value && StartsWith(full, r.value) && (|r.value| < |full| ==> full[|r.value|] == ':')
  {
    if INSTANCE_VARIABLE in environ then
      var full := environ[INSTANCE_VARIABLE];
      SplitOnFirst(full, ':');
      Some(SplitOn(full, ':')[0])
    else None
  }

  /** The first piece of a split is the text up to the first separator. */
  lemma SplitOnFirst(s: string, c: char)
    ensures var p := SplitOn(s, c)[0]; StartsWith(s, p) && (|p| < |s| ==> s[|p|] == c)
  {
    var pieces := SplitOn(s, c);
    JoinSplitOn(s, c);
    if |pieces| > 1 {
      assert s == pieces[0] + [c] + Join([c], pieces[1..]);
      assert s[..|pieces[0]|] == pieces[0];
    }
  }

  /** The instance of a clone `name:n` is `name`. */
  lemma InstanceOfClone(environ: Environ, name: string, n: string)
    requires ':' !in name
    requires INSTANCE_VARIABLE in environ && environ[INSTANCE_VARIABLE] == name + ":" + n
    ensures Instance(environ) == Some(name)
  {
    SplitOnAppend(name, ':', n);
    assert name + ":" + n == name + [':'] + n;
  }

  /** `param(name, type, default)`: the default when the variable is unset, else its decoded value. */
  function Param(environ: Environ, name: string, t: OcfType, default: Option<Value>): (r: Result<Option<Value>>)
    ensures "OCF_RESKEY_" + name !in environ ==> r == Ok(default)
    ensures "OCF_RESKEY_" + name in environ ==>
      (r.Ok? <==> FromOcf(environ["OCF_RESKEY_" + name], t).Ok?) &&
      (r.Ok? ==> r.value == Some(FromOcf(environ["OCF_RESKEY_" + name], t).value))
  {
    var variable := "OCF_RESKEY_" + name;
    if variable !in environ then Ok(default)
    else
      match FromOcf(environ[variable], t)
      case Ok(v) => Ok(Some(v))
      case Err(e) => Err(e)
  }

  /** A parameter exported with `to_ocf` reads back as the same value. */
  lemma ParamReadsExport(environ: Environ, name: string, v: Value, default: Option<Value>)
    requires Storable(v)
    requires "OCF_RESKEY_" + name in environ && environ["OCF_RESKEY_" + name] == ToOcf(v)
    ensures Param(environ, name, TypeOf(v), default) == Ok(Some(v))
  {
    FromOcfToOcf(v);
  }

  /** `meta(name, type, default)`: the parameter `CRM_meta_<name>`. */
  function Meta(environ: Environ, name: string, t: OcfType, default: Option<Value>): Result<Option<Value>> {
    Param(environ, "CRM_meta_" + name, t, default)
  }

  /** An integer meta parameter, None when unset; raises ValueError for a non-integer. */
  function MetaInt(environ: Environ, name: string): (r: Result<Option<int>>)
    ensures r.Ok? && r.value.Some? ==> Meta(environ, name, IntType, None) == Ok(Some(IntValue(r.value.value)))
    ensures r.Ok? && r.value.None? ==> Meta(environ, name, IntType, None) == Ok(None)
    ensures r.Err? <==> Meta(environ, name, IntType, None).Err?
  {
    match Meta(environ, name, IntType, None)
    case Err(e) => Err(e)
    case Ok(None) => Ok(None)
    case Ok(Some(v)) => Ok(Some(v.n))
  }

  /** A boolean meta parameter, None when unset. */
  function MetaBool(environ: Environ, name: string): (r: Option<bool>)
    ensures r.Some? ==> Meta(environ, name, BoolType, None) == Ok(Some(BoolValue(r.value)))
    ensures r.None? ==> Meta(environ, name, BoolType, None) == Ok(None)
  {
    match Meta(environ, name, BoolType, None)
    case Ok(Some(v)) => Some(v.b)
    case _ => None
  }

  /** A string meta parameter, None when unset. */
  function MetaStr(environ: Environ, name: string): (r: Option<string>)
    ensures r.Some? ==> Meta(environ, name, StrType, None) == Ok(Some(StrValue(r.value)))
    ensures r.None? ==> Meta(environ, name, StrType, None) == Ok(None)
  {
    match Meta(environ, name, StrType, None)
    case Ok(Some(v)) => Some(v.s)
    case _ => None
  }

  /** Python 2's `x > n` for an integer that may be None: None sorts below every integer. */
  predicate PyGreater(x: Option<int>, n: int) {
    x.Some? && x.value > n
  }

  /** `is_master_slave`: `meta_master_max > 0`, false when unset. */
  function IsMasterSlave(environ: Environ): (r: Result<bool>)
    ensures r.Ok? <==> MetaInt(environ, "master_max").Ok?
    ensures r.Ok? ==> (r.value <==> exists n :: MetaInt(environ, "master_max") == Ok(Some(n)) && n > 0)
  {
    match MetaInt(environ, "master_max")
    case Err(e) => Err(e)
    case Ok(m) => Ok(PyGreater(m, 0))
  }

  /** The two kinds of notification list: resource names and node names. */
  datatype ListKind = Resources | Unames

  function Suffix(kind: ListKind): string {
    match kind
    case Resources => "resource"
    case Unames => "uname"
  }

  /** `meta_notify_resources(label)` / `meta_notify_unames(label)`: None when unset. */
  function NotifyList(environ: Environ, kind: ListKind, listName: string): (r: Option<seq<string>>)
    ensures r.Some? <==>
      Meta(environ, "notify_" + listName + "_" + Suffix(kind), ListType, None).Ok? &&
      Meta(environ, "notify_" + listName + "_" + Suffix(kind), ListType, None).value.Some?
    ensures r.Some? ==> Meta(environ, "notify_" + listName + "_" + Suffix(kind), ListType, None) == Ok(Some(ListValue(r.value)))
  {
    match Meta(environ, "notify_" + listName + "_" + Suffix(kind), ListType, None)
    case Ok(Some(v)) => Some(v.items)
    case _ => None
  }

  /** The TypeError `set(None)` and `sorted(None)` raise for an unset list. */
  const NOT_ITERABLE: Error := Exception("'NoneType' object is not iterable")

  /** The two triples the agent combines: who is active, and who is master. */
  const ACTIVE: (string, string, string) := ("active", "start", "stop")
  const MASTER: (string, string, string) := ("master", "promote", "demote")

  /**
   * `future_resources` / `future_unames`: `sorted(list(set(label) | set(add) - set(remove)))`,
   * the membership once the operation being notified has completed.
   */
  function Future(environ: Environ, kind: ListKind, labels: (string, string, string)): (r: Result<seq<string>>)
    ensures r.Err? <==>
      NotifyList(environ, kind, labels.0).None? || NotifyList(environ, kind, labels.1).None? ||
      NotifyList(environ, kind, labels.2).None?
    ensures r.Err? ==> r.error == NOT_ITERABLE
    ensures r.Ok? ==>
      StrictlySorted(r.value) &&
      Elements(r.value) ==
        (Elements(NotifyList(environ, kind, labels.0).value) + Elements(NotifyList(environ, kind, labels.1).value))
        - Elements(NotifyList(environ, kind, labels.2).value)
  {
    var (listName, add, remove) := labels;
    match (NotifyList(environ, kind, listName), NotifyList(environ, kind, add), NotifyList(environ, kind, remove))
    case (Some(l), Some(a), Some(d)) =>
      var both := SortedSet(l + a);
      ElementsAppend(l, a);
      WithoutStrictlySorted(both, Elements(d));
      Ok(Without(both, Elements(d)))
    case _ => Err(NOT_ITERABLE)
  }

  lemma ElementsAppend(a: seq<string>, b: seq<string>)
    ensures Elements(a + b) == Elements(a) + Elements(b)
  {
    ElementsIn(a);
    ElementsIn(b);
    ElementsIn(a + b);
  }

  /**
   * The future membership is the only increasing list of `(listName | add) - remove`:
   * every node computing it from the same lists gets the same answer.
   */
  lemma FutureIsTheSortedSet(environ: Environ, kind: ListKind, labels: (string, string, string), s: seq<string>)
    requires Future(environ, kind, labels).Ok?
    requires StrictlySorted(s)
    requires Elements(s) ==
      (Elements(NotifyList(environ, kind, labels.0).value) + Elements(NotifyList(environ, kind, labels.1).value))
      - Elements(NotifyList(environ, kind, labels.2).value)
    ensures Future(environ, kind, labels) == Ok(s)
  {
    StrictlySortedUnique(Future(environ, kind, labels).value, s);
  }

  /** `meta_notify_type == 'post'`. */
  predicate IsPostNotification(environ: Environ) {
    MetaStr(environ, "notify_type") == Some("post")
  }

  /**
   * `current_resources` / `current_unames`: after a post-notification the
   * future membership; otherwise the list's own entries, sorted with duplicates kept.
   */
  function Current(environ: Environ, kind: ListKind, labels: (string, string, string)): (r: Result<seq<string>>)
    ensures IsPostNotification(environ) ==> r == Future(environ, kind, labels)
    ensures !IsPostNotification(environ) ==>
      (r.Err? <==> NotifyList(environ, kind, labels.0).None?) &&
      (r.Ok? ==> Sorted(r.value) && multiset(r.value) == multiset(NotifyList(environ, kind, labels.0).value))
  {
    if IsPostNotification(environ) then Future(environ, kind, labels)
    else
      match NotifyList(environ, kind, labels.0)
      case Some(l) => Ok(Sort(l))
      case None => Err(NOT_ITERABLE)
  }

  /** Outside post-notifications the add and remove lists are not consulted, even when unset. */
  lemma CurrentIgnoresChanges(environ: Environ, kind: ListKind, listName: string, a1: string, r1: string, a2: string, r2: string)
    requires !IsPostNotification(environ)
    ensures Current(environ, kind, (listName, a1, r1)) == Current(environ, kind, (listName, a2, r2))
  {
  }

  /** An empty list variable decodes to the empty list, not to an error. */
  lemma EmptyListIsEmpty(environ: Environ, kind: ListKind, listName: string)
    requires "OCF_RESKEY_CRM_meta_notify_" + listName + "_" + Suffix(kind) in environ
    requires environ["OCF_RESKEY_CRM_meta_notify_" + listName + "_" + Suffix(kind)] == ""
    ensures NotifyList(environ, kind, listName) == Some([])
  {
    assert "OCF_RESKEY_" + ("CRM_meta_" + ("notify_" + listName + "_" + Suffix(kind)))
        == "OCF_RESKEY_CRM_meta_notify_" + listName + "_" + Suffix(kind);
  }

  /** A notification, as the agent sees it while handling the notify action. */
  datatype Notification = Notification(kind: string, operation: Option<string>)

  /** `notification`: present only when `meta_notify_type` is set and not empty. */
  function NotificationOf(environ: Environ): (r: Option<Notification>)
    ensures r.Some? <==> MetaStr(environ, "notify_type").Some? && MetaStr(environ, "notify_type").value != ""
    ensures r.Some? ==>
      r.value.kind == MetaStr(environ, "notify_type").value && r.value.operation == MetaStr(environ, "notify_operation")
  {
    match MetaStr(environ, "notify_type")
    case Some(t) => if t != "" then Some(Notification(t, MetaStr(environ, "notify_operation"))) else None
    case None => None
  }

  /** `str(notification)`: `<type>-<operation>`. */
  function NotificationName(n: Notification): string {
    n.kind + "-" + PyStr(n.operation)
  }

  predicate IsPre(n: Notification) {
    n.kind == "pre"
  }

  predicate IsPost(n: Notification) {
    n.kind == "post"
  }

  /** `notification.unames`: the node list of the operation (the list name "None" when it is unset). */
  function NotificationUnames(environ: Environ, n: Notification): Option<seq<string>> {
    NotifyList(environ, Unames, PyStr(n.operation))
  }

  /** `notification.resources`. */
  function NotificationResources(environ: Environ, n: Notification): Option<seq<string>> {
    NotifyList(environ, Resources, PyStr(n.operation))
  }

  /** A post-notification seen through `notification` is exactly a post-notification of `current_*`. */
  lemma NotificationPost(environ: Environ)
    ensures NotificationOf(environ).Some? && IsPost(NotificationOf(environ).value) <==> IsPostNotification(environ)
  {
  }
}
