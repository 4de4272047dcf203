/**
 * Action metadata (ocf/action.py): the `action` decorator that records
 * descriptors on a method, the per-role properties dictionary that
 * creates an entry on first lookup, and the `Action` record.
 */
module OcfAction {
  import opened Wrappers

  /** `ActionDescriptor(name, interval, timeout, role, enabled)`. */
  datatype ActionDescriptor = ActionDescriptor(
    name: Option<string>, interval: Option<int>, timeout: Option<int>, role: Option<string>, enabled: bool)

  /** The descriptor `action(...)` records, with the decorator's defaults. */
  function Descriptor(name: Option<string> := None, interval: Option<int> := None, timeout: Option<int> := None,
                      role: Option<string> := None, enabled: bool := true): ActionDescriptor {
    ActionDescriptor(name, interval, timeout, role, enabled)
  }

  /** `@action()` with no argument: no name, interval, timeout or role, and enabled. */
  lemma DescriptorDefaults()
    ensures Descriptor() == ActionDescriptor(None, None, None, None, true)
    ensures Descriptor(role := Some("Master")).enabled
  {
  }

  /** A method the decorator is applied to, with its `actions` attribute (None until first decorated). */
  class ActionMethod {
    var actions: Option<seq<ActionDescriptor>>

    constructor()
      ensures actions == None
    {
      actions := None;
    }
  }

  /** The descriptors recorded so far. */
  function Recorded(actions: Option<seq<ActionDescriptor>>): seq<ActionDescriptor> {
    if actions.Some? then actions.value else []
  }

  /** `action(...)(func)`: append the descriptor, creating the list if needed, and return the same method. */
  method Decorate(func: ActionMethod, d: ActionDescriptor) returns (r: ActionMethod)
    modifies func
    ensures r == func
    ensures func.actions == Some(Recorded(old(func.actions)) + [d])
  {
    if func.actions.None? {
      func.actions := Some([]);
    }
    func.actions := Some(func.actions.value + [d]);
    r := func;
  }

  /** `s` back to front. */
  function Reversed<T>(s: seq<T>): (r: seq<T>)
    ensures |r| == |s|
    ensures forall i :: 0 <= i < |s| ==> r[i] == s[|s| - 1 - i]
  {
    if |s| == 0 then [] else Reversed(s[1..]) + [s[0]]
  }

  /**
   * Decorators stacked above a method, written top to bottom as in the
   * source: Python applies the bottom one first, so the descriptors are
   * recorded bottom-first after whatever was there.
   */
  method DecorateStacked(func: ActionMethod, ds: seq<ActionDescriptor>) returns (r: ActionMethod)
    modifies func
    ensures r == func
    ensures func.actions == (if |ds| == 0 then old(func.actions) else Some(Recorded(old(func.actions)) + Reversed(ds)))
  {
    r := func;
    var i := |ds|;
    while i > 0
      invariant 0 <= i <= |ds|
      invariant r == func
      invariant Recorded(func.actions) == Recorded(old(func.actions)) + Reversed(ds[i..])
      invariant i == |ds| ==> func.actions == old(func.actions)
      invariant i < |ds| ==> func.actions.Some?
    {
      i := i - 1;
      assert ds[i..][1..] == ds[i + 1..];
      assert Reversed(ds[i..]) == Reversed(ds[i + 1..]) + [ds[i]];
      ghost var before := Recorded(func.actions);
      r := Decorate(func, ds[i]);
      assert Recorded(func.actions) == before + [ds[i]];
      assert before + [ds[i]] == Recorded(old(func.actions)) + Reversed(ds[i..]);
    }
  }

  /** The two decorators on the multi-state monitor action, as written: Master above Slave. */
  function MultiStateMonitorDecorators(): seq<ActionDescriptor> {
    [Descriptor(role := Some("Master"), interval := Some(10), timeout := Some(30)),
     Descriptor(role := Some("Slave"), interval := Some(30), timeout := Some(30))]
  }

  /** The multi-state monitor records Slave before Master. */
  lemma MultiStateMonitorRecordsSlaveFirst()
    ensures var ds := Reversed(MultiStateMonitorDecorators());
      ds[0].role == Some("Slave") && ds[1].role == Some("Master") && ds[0].interval == Some(30) && ds[1].interval == Some(10)
  {
  }

  /** `ActionRole(interval, timeout)`. */
  datatype ActionRole = ActionRole(interval: Option<int>, timeout: Option<int>)

  /** `ActionRoles()`: a dictionary of roles that creates `ActionRole()` for a role first looked up. */
  class ActionRoles {
    var roles: map<string, ActionRole>

    constructor(roles: map<string, ActionRole>)
      ensures this.roles == roles
    {
      this.roles := roles;
    }

    /** `roles[role]`. */
    method Lookup(role: string) returns (r: ActionRole)
      modifies this
      ensures role in old(roles) ==> r == old(roles)[role] && roles == old(roles)
      ensures role !in old(roles) ==> r == ActionRole(None, None) && roles == old(roles)[role := r]
    {
      if role !in roles {
        roles := roles[role := ActionRole(None, None)];
      }
      r := roles[role];
    }
  }

  /** `Action(method, enabled, roles)`. */
  class Action {
    const handler: Option<string>
    var enabled: bool
    const roles: ActionRoles

    /** The roles are exactly those supplied, or none. */
    constructor(handler: Option<string> := None, enabled: bool := true, roles: Option<map<string, ActionRole>> := None)
      ensures this.handler == handler && this.enabled == enabled
      ensures fresh(this.roles) && this.roles.roles == (if roles.Some? then roles.value else map[])
    {
      this.handler := handler;
      this.enabled := enabled;
      this.roles := new ActionRoles(if roles.Some? then roles.value else map[]);
    }
  }
}
