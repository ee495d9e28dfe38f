/** The gate that wraps a protected view: staff users need the view's
    capability string in their `staffPermission` list, every other role
    passes. */
module AccessControl {
  import opened StoreRules

  /** What the gate renders: the wrapped children, or the fixed denial view. */
  datatype View<C> = Children(content: C) | AccessDenied

  /** `isStaff && !isAllowed` negated: the gate lets the children through. */
  predicate IsAllowed(required: string, role: string, staffPermission: seq<string>) {
    !(role == "staff" && required !in staffPermission)
  }

  /** The component reading `role` and `staffPermission` from the store record. */
  function Gate<C>(s: StoreState, required: string, children: C): (v: View<C>)
    ensures v.Children? <==> IsAllowed(required, s.auth.role, s.auth.staffPermission)
    ensures v.Children? ==> v.content == children
  {
    if s.auth.role == "staff" && required !in s.auth.staffPermission then AccessDenied else Children(children)
  }

  /** Any role other than "staff" is let through, including the empty role
      before hydration and capability strings no screen uses. */
  lemma NonStaffAlwaysAllowed(required: string, role: string, staffPermission: seq<string>)
    requires role != "staff"
    ensures IsAllowed(required, role, staffPermission)
  {
  }

  /** For staff, access is exactly membership of the capability string. */
  lemma StaffAllowedIff(required: string, staffPermission: seq<string>)
    ensures IsAllowed(required, "staff", staffPermission) <==> required in staffPermission
  {
  }

  /** The decision depends on `role` and `staffPermission` only: records that
      agree on those two fields (whatever their `permissions`) get the same view. */
  lemma GateReadsRoleAndStaffPermission<C>(s: StoreState, t: StoreState, required: string, children: C)
    requires s.auth.role == t.auth.role && s.auth.staffPermission == t.auth.staffPermission
    ensures Gate(s, required, children) == Gate(t, required, children)
  {
  }

  /** Granting more capabilities never turns an allow into a deny. */
  lemma GateMonotone(required: string, role: string, granted: seq<string>, more: seq<string>)
    requires IsAllowed(required, role, granted)
    ensures IsAllowed(required, role, granted + more)
    ensures IsAllowed(required, role, more + granted)
  {
    if role == "staff" {
      assert required in granted;
      var i :| 0 <= i < |granted| && granted[i] == required;
      assert (granted + more)[i] == required;
      assert (more + granted)[|more| + i] == required;
    }
  }

  /** A denied view carries nothing of the children. */
  lemma DeniedHidesChildren<C>(s: StoreState, required: string, children: C)
    requires s.auth.role == "staff" && required !in s.auth.staffPermission
    ensures Gate(s, required, children) == AccessDenied
  {
  }
}
