/**
 * The tenant's subscription: plans, business types and module flags, the
 * monthly price of a plan with its add-ons, the default modules of a
 * business type, and the status and module checks.
 *
 * A module flag is an optional boolean: a stored document may lack a flag
 * (`getDefaultModules` itself sets no `loyalty` flag), and the checks read a
 * missing flag as off.
 */
module Subscriptions {
  import opened Common

  datatype Plan = ZooviaPlan | BaseVet | BaseGrooming | CompleteVet | CompleteGrooming | Custom

  datatype BusinessType = Veterinary | Grooming | Hybrid

  datatype Modules = Modules(
    clients: Option<bool>,
    pets: Option<bool>,
    medicalRecords: Option<bool>,
    appointments: Option<bool>,
    loyalty: Option<bool>,
    grooming: Option<bool>,
    inventory: Option<bool>)

  datatype SubStatus = Active | Trial | Suspended | Cancelled

  /** The part of a subscription the core reads; billing fields are left out. */
  datatype Subscription = Subscription(plan: Plan, businessType: BusinessType, modules: Modules, status: SubStatus)

  /** A flag is on only when it is stored as `true` (truthiness and `=== true` agree on optional booleans). */
  predicate On(flag: Option<bool>) {
    flag == Some(true)
  }

  // Prices (`PRICES`)
  const BaseVetPrice := 15
  const BaseGroomingPrice := 12
  const CompleteVetPrice := 35
  const CompleteGroomingPrice := 25
  const AppointmentsPrice := 8
  const GroomingPrice := 10
  const InventoryPrice := 12

  /**
   * `calculatePrice`: the bundles have a fixed price; every other plan pays
   * its base (zero for the single and custom plans) plus appointments,
   * grooming unless the plan is the grooming base, and inventory.
   */
  function CalculatePrice(plan: Plan, modules: Modules): (price: int)
    ensures 0 <= price <= 45
  {
    if plan == CompleteVet then CompleteVetPrice
    else if plan == CompleteGrooming then CompleteGroomingPrice
    else
      var base := if plan == BaseVet then BaseVetPrice else if plan == BaseGrooming then BaseGroomingPrice else 0;
      var withAppointments := base + if On(modules.appointments) then AppointmentsPrice else 0;
      var withGrooming := withAppointments + if On(modules.grooming) && plan != BaseGrooming then GroomingPrice else 0;
      withGrooming + if On(modules.inventory) then InventoryPrice else 0
  }

  /** The price of a plan without any add-on. */
  function BasePrice(plan: Plan): int {
    match plan
    case BaseVet => BaseVetPrice
    case BaseGrooming => BaseGroomingPrice
    case CompleteVet => CompleteVetPrice
    case CompleteGrooming => CompleteGroomingPrice
    case _ => 0
  }

  /** The modules that are billed as add-ons on `plan`. */
  function AddOns(plan: Plan, m: Modules): set<string> {
    if plan == CompleteVet || plan == CompleteGrooming then {}
    else
      (if On(m.appointments) then {"appointments"} else {})
      + (if On(m.grooming) && plan != BaseGrooming then {"grooming"} else {})
      + (if On(m.inventory) then {"inventory"} else {})
  }

  function AddOnPrice(key: string): int {
    if key == "appointments" then AppointmentsPrice
    else if key == "grooming" then GroomingPrice
    else if key == "inventory" then InventoryPrice
    else 0
  }

  /**
   * The price is the plan's base plus the price of each billed add-on; the
   * bundles bill none, and the grooming base does not bill grooming.
   */
  lemma PriceIsBasePlusAddOns(plan: Plan, m: Modules)
    ensures var a := AddOns(plan, m);
      CalculatePrice(plan, m) == BasePrice(plan)
        + (if "appointments" in a then AddOnPrice("appointments") else 0)
        + (if "grooming" in a then AddOnPrice("grooming") else 0)
        + (if "inventory" in a then AddOnPrice("inventory") else 0)
  {
  }

  /** The core flags and the loyalty flag never change the price. */
  lemma PriceIgnoresCoreFlags(plan: Plan, m: Modules, clients: Option<bool>, pets: Option<bool>,
                              medicalRecords: Option<bool>, loyalty: Option<bool>)
    ensures CalculatePrice(plan, m) ==
      CalculatePrice(plan, m.(clients := clients, pets := pets, medicalRecords := medicalRecords, loyalty := loyalty))
  {
  }

  /** Turning on an add-on never lowers the price. */
  lemma PriceMonotone(plan: Plan, m: Modules, m': Modules)
    requires On(m.appointments) ==> On(m'.appointments)
    requires On(m.grooming) ==> On(m'.grooming)
    requires On(m.inventory) ==> On(m'.inventory)
    ensures CalculatePrice(plan, m) <= CalculatePrice(plan, m')
  {
  }

  /** The price bounds are reached: 0 for a bare custom plan, 45 for base vet with every add-on. */
  lemma PriceBoundsTight()
    ensures CalculatePrice(Custom, Modules(None, None, None, None, None, None, None)) == 0
    ensures CalculatePrice(BaseVet, Modules(None, None, None, Some(true), None, Some(true), Some(true))) == 45
  {
  }

  /**
   * `getDefaultModules`: clients and pets on, appointments and inventory
   * off, medical records for veterinary and hybrid businesses, grooming for
   * grooming businesses, and no loyalty flag at all.
   */
  function DefaultModules(t: BusinessType): (m: Modules)
    ensures m.clients == Some(true) && m.pets == Some(true)
    ensures m.appointments == Some(false) && m.inventory == Some(false)
    ensures On(m.medicalRecords) <==> t == Veterinary || t == Hybrid
    ensures On(m.grooming) <==> t == Grooming
    ensures m.medicalRecords.Some? && m.grooming.Some? && m.loyalty.None?
  {
    Modules(Some(true), Some(true), Some(t == Veterinary || t == Hybrid), Some(false), None, Some(t == Grooming), Some(false))
  }

  /** A hybrid business gets medical records but not grooming by default. */
  lemma HybridDefaultsOmitGrooming()
    ensures var m := DefaultModules(Hybrid);
      On(m.medicalRecords) && !On(m.grooming)
  {
  }

  /** `isSubscriptionActive`: a subscription exists and is active or in trial. */
  predicate IsSubscriptionActive(sub: Option<Subscription>) {
    sub.Some? && (sub.value.status == Active || sub.value.status == Trial)
  }

  /** `modules[key]` for a module key given as text; any other key reads as absent. */
  function ModuleFlag(m: Modules, key: string): (flag: Option<bool>)
    ensures key !in ModuleKeys ==> flag.None?
  {
    if key == "clients" then m.clients
    else if key == "pets" then m.pets
    else if key == "medicalRecords" then m.medicalRecords
    else if key == "appointments" then m.appointments
    else if key == "loyalty" then m.loyalty
    else if key == "grooming" then m.grooming
    else if key == "inventory" then m.inventory
    else None
  }

  const ModuleKeys: set<string> := {"clients", "pets", "medicalRecords", "appointments", "loyalty", "grooming", "inventory"}

  /** The `hasModule` decision: no subscription means no module; otherwise the flag must be `true`. */
  predicate HasModule(sub: Option<Subscription>, key: string) {
    sub.Some? && ModuleFlag(sub.value.modules, key) == Some(true)
  }

  /**
   * Under the default modules of a business type, `hasModule` grants exactly
   * clients, pets, medical records for veterinary or hybrid businesses, and
   * grooming for grooming businesses.
   */
  lemma DefaultModuleAccess(sub: Subscription, key: string)
    requires sub.modules == DefaultModules(sub.businessType)
    ensures HasModule(Some(sub), key) <==>
      key == "clients" || key == "pets"
      || (key == "medicalRecords" && sub.businessType != Grooming)
      || (key == "grooming" && sub.businessType == Grooming)
  {
  }
}
