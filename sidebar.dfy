/** The navigation menu: eight entries, each offered to a fixed set of roles. */
module Sidebar {
  import opened Base
  import opened Entities
  import opened Seqs

  /** The entries of `allMenuItems`. */
  datatype Entry = Dashboard | Doctors | Patients | Appointments | Billing | Reports | Profile | Settings

  /** `allMenuItems`, in display order. */
  const AllEntries: seq<Entry> := [Dashboard, Doctors, Patients, Appointments, Billing, Reports, Profile, Settings]

  function Path(e: Entry): string {
    match e
    case Dashboard => "/dashboard"
    case Doctors => "/doctors"
    case Patients => "/patients"
    case Appointments => "/appointments"
    case Billing => "/billing"
    case Reports => "/reports"
    case Profile => "/profile"
    case Settings => "/settings"
  }

  /** The `roles` list of each entry. */
  function Roles(e: Entry): seq<Role> {
    match e
    case Dashboard => [ADMIN, PATIENT, DOCTOR]
    case Doctors => [ADMIN, PATIENT]
    case Patients => [ADMIN, DOCTOR]
    case Appointments => [ADMIN, PATIENT, DOCTOR]
    case Billing => [ADMIN, PATIENT]
    case Reports => [ADMIN, PATIENT]
    case Profile => [ADMIN, PATIENT, DOCTOR]
    case Settings => [ADMIN]
  }

  /** `item.roles.includes(role)`; an unknown or missing role is in no list. */
  predicate Offers(e: Entry, role: Option<Role>) {
    role.Some? && role.value in Roles(e)
  }

  /** The table lists every entry. */
  lemma EveryEntryListed(e: Entry)
    ensures e in AllEntries
  {
    match e
    case Dashboard => assert AllEntries[0] == e;
    case Doctors => assert AllEntries[1] == e;
    case Patients => assert AllEntries[2] == e;
    case Appointments => assert AllEntries[3] == e;
    case Billing => assert AllEntries[4] == e;
    case Reports => assert AllEntries[5] == e;
    case Profile => assert AllEntries[6] == e;
    case Settings => assert AllEntries[7] == e;
  }

  /** `entries.filter(item => item.roles.includes(role))`, written out as a
      recursion over the entries so that the table's eight entries unfold
      cheaply. */
  function Select(role: Option<Role>, entries: seq<Entry>): seq<Entry>
    decreases |entries|
  {
    if entries == [] then []
    else if Offers(entries[0], role) then [entries[0]] + Select(role, entries[1..])
    else Select(role, entries[1..])
  }

  /** The selection keeps the table's order and exactly the offered entries. */
  lemma {:induction false} SelectSpec(role: Option<Role>, entries: seq<Entry>)
    ensures SubseqOf(Select(role, entries), entries)
    ensures forall e :: e in Select(role, entries) <==> e in entries && Offers(e, role)
    decreases |entries|
  {
    if entries != [] {
      SelectSpec(role, entries[1..]);
      assert forall e :: e in entries <==> e == entries[0] || e in entries[1..];
    }
  }

  /** The entries shown to a session. */
  function MenuItems(role: Option<Role>): seq<Entry> {
    Select(role, AllEntries)
  }

  /** An entry is in a session's menu exactly when its roles include the
      session's role. */
  lemma MenuMembership(role: Option<Role>)
    ensures forall e :: e in MenuItems(role) <==> Offers(e, role)
  {
    forall e ensures e in AllEntries { EveryEntryListed(e); }
    SelectSpec(role, AllEntries);
  }

  /** The menu keeps the table's order. */
  lemma MenuKeepsTableOrder(role: Option<Role>)
    ensures SubseqOf(MenuItems(role), AllEntries)
  {
    SelectSpec(role, AllEntries);
  }

  /** An administrator sees the whole table. */
  lemma AdminMenu()
    ensures MenuItems(Some(ADMIN)) == AllEntries
  {
  }

  /** A patient's menu, in order. */
  lemma PatientMenu()
    ensures MenuItems(Some(PATIENT)) == [Dashboard, Doctors, Appointments, Billing, Reports, Profile]
  {
  }

  /** A doctor's menu, in order. */
  lemma DoctorMenu()
    ensures MenuItems(Some(DOCTOR)) == [Dashboard, Patients, Appointments, Profile]
  {
  }

  /** A session without a known role gets an empty menu. */
  lemma NoRoleNoMenu()
    ensures MenuItems(None) == []
  {
  }

  /** Every role's menu holds the dashboard, the appointments and the profile, and
      only an administrator's holds the settings. */
  lemma CommonEntries(role: Role)
    ensures Dashboard in MenuItems(Some(role)) && Appointments in MenuItems(Some(role)) && Profile in MenuItems(Some(role))
    ensures Settings in MenuItems(Some(role)) <==> role == ADMIN
  {
    MenuMembership(Some(role));
  }
}
