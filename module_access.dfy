/**
 * The route guard of the module-restricted pages: it lets a tenant without
 * subscription data through, and otherwise lets through only tenants whose
 * required module flag is `true`, sending the others to the restricted page.
 */
module ModuleAccess {
  import opened Common
  import opened Subscriptions
  import opened Navigation

  /** A navigation the guard starts: a path and its `module` query parameter. */
  datatype Redirect = Redirect(path: string, moduleParam: string)

  /** The guard's answer, and the navigation it started on a denial. */
  datatype Decision = Decision(allow: bool, redirect: Option<Redirect>)

  const RestrictedPath := "/dashboard/restricted"

  /** `moduleAccessGuard` for the route's `requiredModule`. */
  function GuardDecision(sub: Option<Subscription>, requiredModule: string): (d: Decision)
    ensures sub.None? ==> d == Decision(true, None)
    ensures sub.Some? ==> (d.allow <==> ModuleFlag(sub.value.modules, requiredModule) == Some(true))
    ensures d.allow <==> d.redirect.None?
    ensures d.redirect.Some? ==> d.redirect.value == Redirect(RestrictedPath, requiredModule)
  {
    if sub.None? then Decision(true, None)
    else if ModuleFlag(sub.value.modules, requiredModule) == Some(true) then Decision(true, None)
    else Decision(false, Some(Redirect(RestrictedPath, requiredModule)))
  }

  /**
   * With a subscription the guard agrees with `hasModule`; without one the
   * guard lets the tenant through while `hasModule` says no.
   */
  lemma GuardAgreesWithHasModule(sub: Option<Subscription>, key: string)
    ensures sub.Some? ==> (GuardDecision(sub, key).allow <==> HasModule(sub, key))
    ensures sub.None? ==> GuardDecision(sub, key).allow && !HasModule(sub, key)
  {
  }

  /** A route keyed by anything but a module name is refused whenever a subscription exists. */
  lemma UnknownModuleDenied(sub: Subscription, key: string)
    requires key !in ModuleKeys
    ensures GuardDecision(Some(sub), key) == Decision(false, Some(Redirect(RestrictedPath, key)))
  {
  }

  /**
   * The menu and the guard agree: each optional entry is shown exactly when
   * the guard lets the tenant into its module.
   */
  lemma MenuMatchesGuard(sub: Subscription, k: nat)
    requires k < |Optional|
    ensures Optional[k].1 in Menu(Some(sub)) <==> GuardDecision(Some(sub), Optional[k].0).allow
  {
    MenuShowsModule(sub, k);
  }
}
