/**
 * The side menu: three fixed entries, the optional entries of the active
 * modules, and the settings entry last.
 */
module Navigation {
  import opened Common
  import opened Subscriptions

  datatype MenuItem = MenuItem(icon: string, title: string, route: string)

  const Home := MenuItem("dashboard", "Inicio", "/dashboard")
  const Clients := MenuItem("people", "Clientes", "/dashboard/clients")
  const Pets := MenuItem("pets", "Mascotas", "/dashboard/pets")
  const MedicalRecords := MenuItem("medical_services", "Historiales", "/dashboard/medical-records")
  const Appointments := MenuItem("event", "Turnos", "/dashboard/appointments")
  const GroomingItem := MenuItem("content_cut", "Peluquería", "/dashboard/grooming")
  const Inventory := MenuItem("inventory", "Inventario", "/dashboard/inventory")
  const Settings := MenuItem("settings", "Configuración", "/dashboard/settings")

  /** The entries that are always shown first. */
  const Fixed := [Home, Clients, Pets]

  /** The optional entries, in menu order, each paired with the module key that shows it. */
  const Optional := [("medicalRecords", MedicalRecords), ("appointments", Appointments),
                     ("grooming", GroomingItem), ("inventory", Inventory)]

  /** The optional entries whose module flag is on, in menu order. */
  function ModuleItems(m: Modules): seq<MenuItem> {
    (if On(m.medicalRecords) then [MedicalRecords] else [])
    + (if On(m.appointments) then [Appointments] else [])
    + (if On(m.grooming) then [GroomingItem] else [])
    + (if On(m.inventory) then [Inventory] else [])
  }

  /** The number of optional modules switched on. */
  function OptionalCount(m: Modules): nat {
    (if On(m.medicalRecords) then 1 else 0) + (if On(m.appointments) then 1 else 0)
    + (if On(m.grooming) then 1 else 0) + (if On(m.inventory) then 1 else 0)
  }

  /**
   * `getMenuItems` for the tenant's subscription (`None` when there is no
   * veterinary or no subscription).
   */
  method GetMenuItems(sub: Option<Subscription>) returns (items: seq<MenuItem>)
    ensures items == Menu(sub)
  {
    items := [];
    items := items + [Home];
    items := items + [Clients];
    items := items + [Pets];
    if sub.None? {
      items := items + [Settings];
      return;
    }
    var m := sub.value.modules;
    if On(m.medicalRecords) {
      items := items + [MedicalRecords];
    }
    if On(m.appointments) {
      items := items + [Appointments];
    }
    if On(m.grooming) {
      items := items + [GroomingItem];
    }
    if On(m.inventory) {
      items := items + [Inventory];
    }
    items := items + [Settings];
  }

  /** The menu `getMenuItems` builds, as a value: the fixed entries, the switched-on modules, settings. */
  function Menu(sub: Option<Subscription>): seq<MenuItem> {
    if sub.None? then Fixed + [Settings] else Fixed + ModuleItems(sub.value.modules) + [Settings]
  }

  /**
   * The menu starts with the three fixed entries, ends with settings, shows
   * settings nowhere else, and has four entries plus one per optional module
   * switched on; without a subscription it has exactly four.
   */
  lemma MenuShape(sub: Option<Subscription>)
    ensures var items := Menu(sub);
      && items[..3] == Fixed
      && items[|items| - 1] == Settings
      && (forall i :: 0 <= i < |items| - 1 ==> items[i] != Settings)
      && |items| == 4 + (if sub.Some? then OptionalCount(sub.value.modules) else 0)
  {
    if sub.Some? {
      var m := sub.value.modules;
      var mid := ModuleItems(m);
      assert forall x :: x in mid ==> x in {MedicalRecords, Appointments, GroomingItem, Inventory};
      var items := Menu(sub);
      forall i | 0 <= i < |items| - 1
        ensures items[i] != Settings
      {
        if i >= 3 {
          assert items[i] == mid[i - 3];
        }
      }
    }
  }

  /** Each optional entry is shown exactly when its module flag is `true`. */
  lemma MenuShowsModule(sub: Subscription, k: nat)
    requires k < |Optional|
    ensures Optional[k].1 in Menu(Some(sub)) <==> On(ModuleFlag(sub.modules, Optional[k].0))
  {
    var m := sub.modules;
    var items := Menu(Some(sub));
    var mid := ModuleItems(m);
    assert items == Fixed + mid + [Settings];
    assert Optional[k].1 in items <==> Optional[k].1 in mid;
  }

  /** The loyalty flag never adds an entry. */
  lemma LoyaltyHasNoEntry(sub: Subscription, loyalty: Option<bool>)
    ensures Menu(Some(sub)) == Menu(Some(sub.(modules := sub.modules.(loyalty := loyalty))))
  {
  }
}
