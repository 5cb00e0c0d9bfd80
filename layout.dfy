/** The application shell of src/components/AppLayout.tsx: the role table of
    the sidebar menu, which sections and items a user is shown, the unread
    count behind the bell, and the text of its badge. */
module Layout {
  import opened Collections
  import opened Session
  import Text
  import Notifications

  /** A sidebar entry: its title, the route it opens, and the roles it is
      listed for. */
  datatype MenuItem = MenuItem(title: string, path: string, roles: seq<Role>)

  datatype Section = Section(heading: string, items: seq<MenuItem>)

  const Everyone: seq<Role> := [Admin, Manager, Resident]
  const Staff: seq<Role> := [Admin, Manager]

  const Dashboard := MenuItem("Dashboard", "/dashboard", Everyone)
  const Buildings := MenuItem("Buildings", "/buildings", Staff)
  const BuildingManagers := MenuItem("Building Managers", "/managers", [Admin])
  const Units := MenuItem("Units", "/units", Staff)
  const UnitResidents := MenuItem("Unit Residents", "/residents", Staff)
  const BuildingCosts := MenuItem("Building Costs", "/costs", Staff)
  const Bills := MenuItem("Bills", "/bills", Everyone)
  const BuildingCharges := MenuItem("Building Charges", "/charges", Staff)
  const Announcements := MenuItem("Announcements", "/announcements", Everyone)
  const Notices := MenuItem("Notifications", "/notifications", Everyone)

  const Overview := Section("Overview", [Dashboard])
  const PropertyManagement := Section("Property Management", [Buildings, BuildingManagers, Units, UnitResidents])
  const Financial := Section("Financial", [BuildingCosts, Bills, BuildingCharges])
  const Communication := Section("Communication", [Announcements, Notices])

  /** `getMenuItems`: the four sections in display order. */
  const MenuSections: seq<Section> := [Overview, PropertyManagement, Financial, Communication]

  /** The item filter: there is a user and the item lists that user's role. */
  function ShownTo(user: Option<User>): MenuItem -> bool
  {
    (item: MenuItem) => user.Some? && user.value.role in item.roles
  }

  /** `visibleItems` of one section. */
  function VisibleItems(items: seq<MenuItem>, user: Option<User>): (r: seq<MenuItem>)
    ensures forall item :: item in r <==> item in items && user.Some? && user.value.role in item.roles
  {
    Filter(items, ShownTo(user))
  }

  /** The rendered sidebar: each section with its visible items, a section
      with none left out, in the original order. */
  function Sidebar(sections: seq<Section>, user: Option<User>): (r: seq<Section>)
    ensures |r| <= |sections|
  {
    if sections == [] then []
    else
      var v := VisibleItems(sections[0].items, user);
      (if v != [] then [Section(sections[0].heading, v)] else []) + Sidebar(sections[1..], user)
  }

  /** A section appears exactly when some of its items are visible, and
      then with those items. */
  lemma {:induction false} SidebarShows(sections: seq<Section>, user: Option<User>, g: Section)
    ensures g in Sidebar(sections, user) <==>
      g.items != [] && exists s :: s in sections && g == Section(s.heading, VisibleItems(s.items, user))
  {
    if sections != [] {
      SidebarShows(sections[1..], user, g);
      assert forall t :: t in sections <==> t == sections[0] || t in sections[1..];
    }
  }

  /** The routes of the rendered sidebar, top to bottom. */
  function OfferedPaths(groups: seq<Section>): (r: seq<string>)
    ensures forall path :: path in r <==> exists g, item :: g in groups && item in g.items && item.path == path
  {
    if groups == [] then []
    else
      assert forall g :: g in groups <==> g == groups[0] || g in groups[1..];
      ItemPaths(groups[0].items) + OfferedPaths(groups[1..])
  }

  function ItemPaths(items: seq<MenuItem>): (r: seq<string>)
    ensures forall path :: path in r <==> exists item :: item in items && item.path == path
  {
    if items == [] then []
    else
      assert forall item :: item in items <==> item == items[0] || item in items[1..];
      [items[0].path] + ItemPaths(items[1..])
  }

  /** What one item contributes to its section's visible items. */
  function Keep(item: MenuItem, user: Option<User>): seq<MenuItem>
  {
    if user.Some? && user.value.role in item.roles then [item] else []
  }

  /** One section's visible items, item by item. */
  lemma VisibleCons(item: MenuItem, rest: seq<MenuItem>, user: Option<User>)
    ensures VisibleItems([item] + rest, user) == Keep(item, user) + VisibleItems(rest, user)
  {
    FilterCons(item, rest, ShownTo(user));
  }

  lemma VisibleOfThree(a: MenuItem, b: MenuItem, c: MenuItem, user: Option<User>)
    ensures VisibleItems([a, b, c], user) == Keep(a, user) + (Keep(b, user) + Keep(c, user))
  {
    assert [a, b, c] == [a] + ([b] + ([c] + []));
    VisibleCons(a, [b] + ([c] + []), user);
    VisibleCons(b, [c] + [], user);
    VisibleCons(c, [], user);
  }

  lemma VisibleOfFour(a: MenuItem, b: MenuItem, c: MenuItem, d: MenuItem, user: Option<User>)
    ensures VisibleItems([a, b, c, d], user) == Keep(a, user) + (Keep(b, user) + (Keep(c, user) + Keep(d, user)))
  {
    assert [a, b, c, d] == [a] + ([b] + ([c] + ([d] + [])));
    VisibleCons(a, [b] + ([c] + ([d] + [])), user);
    VisibleCons(b, [c] + ([d] + []), user);
    VisibleCons(c, [d] + [], user);
    VisibleCons(d, [], user);
  }

  /** The sidebar of a list of sections, one section at a time. */
  lemma SidebarCons(s: Section, rest: seq<Section>, user: Option<User>)
    ensures Sidebar([s] + rest, user)
         == (if VisibleItems(s.items, user) != [] then [Section(s.heading, VisibleItems(s.items, user))] else [])
            + Sidebar(rest, user)
  {
    assert ([s] + rest)[0] == s && ([s] + rest)[1..] == rest;
  }

  /** The sidebar of four sections, section by section. */
  lemma SidebarOfFour(a: Section, b: Section, c: Section, d: Section, user: Option<User>)
    ensures Sidebar([a, b, c, d], user) == Shown(a, user) + (Shown(b, user) + (Shown(c, user) + Shown(d, user)))
  {
    assert [a, b, c, d] == [a] + ([b] + ([c] + ([d] + [])));
    SidebarCons(a, [b] + ([c] + ([d] + [])), user);
    SidebarCons(b, [c] + ([d] + []), user);
    SidebarCons(c, [d] + [], user);
    SidebarCons(d, [], user);
  }

  /** What one section contributes to the sidebar. */
  function Shown(s: Section, user: Option<User>): seq<Section>
  {
    if VisibleItems(s.items, user) != [] then [Section(s.heading, VisibleItems(s.items, user))] else []
  }

  /** Nobody signed in: the sidebar is empty. */
  lemma SignedOutSeesNothing()
    ensures Sidebar(MenuSections, None) == []
  {
    SidebarOfFour(Overview, PropertyManagement, Financial, Communication, None);
    FilterNone(Overview.items, ShownTo(None));
    FilterNone(PropertyManagement.items, ShownTo(None));
    FilterNone(Financial.items, ShownTo(None));
    FilterNone(Communication.items, ShownTo(None));
  }

  /** An admin's sidebar is the whole menu. */
  lemma AdminSeesEverything(u: User)
    requires u.role == Admin
    ensures Sidebar(MenuSections, Some(u)) == MenuSections
  {
    SidebarOfFour(Overview, PropertyManagement, Financial, Communication, Some(u));
    AdminShown(u);
  }

  lemma AdminShown(u: User)
    requires u.role == Admin
    ensures Shown(Overview, Some(u)) == [Overview]
    ensures Shown(PropertyManagement, Some(u)) == [PropertyManagement]
    ensures Shown(Financial, Some(u)) == [Financial]
    ensures Shown(Communication, Some(u)) == [Communication]
  {
    FilterAll(Overview.items, ShownTo(Some(u)));
    FilterAll(PropertyManagement.items, ShownTo(Some(u)));
    FilterAll(Financial.items, ShownTo(Some(u)));
    FilterAll(Communication.items, ShownTo(Some(u)));
  }

  /** A manager's sidebar is the whole menu but the Building Managers
      entry. */
  lemma ManagerSidebar(u: User)
    requires u.role == Manager
    ensures Sidebar(MenuSections, Some(u))
         == [Overview, Section("Property Management", [Buildings, Units, UnitResidents]), Financial, Communication]
  {
    SidebarOfFour(Overview, PropertyManagement, Financial, Communication, Some(u));
    ManagerShown(u);
  }

  lemma ManagerShown(u: User)
    requires u.role == Manager
    ensures Shown(Overview, Some(u)) == [Overview]
    ensures Shown(PropertyManagement, Some(u)) == [Section("Property Management", [Buildings, Units, UnitResidents])]
    ensures Shown(Financial, Some(u)) == [Financial]
    ensures Shown(Communication, Some(u)) == [Communication]
  {
    FilterAll(Overview.items, ShownTo(Some(u)));
    FilterAll(Financial.items, ShownTo(Some(u)));
    FilterAll(Communication.items, ShownTo(Some(u)));
    ManagerPropertyItems(u);
  }

  lemma ManagerPropertyItems(u: User)
    requires u.role == Manager
    ensures VisibleItems(PropertyManagement.items, Some(u)) == [Buildings, Units, UnitResidents]
  {
    VisibleOfFour(Buildings, BuildingManagers, Units, UnitResidents, Some(u));
    assert Keep(BuildingManagers, Some(u)) == [];
    assert Keep(Buildings, Some(u)) == [Buildings] && Keep(Units, Some(u)) == [Units];
    assert Keep(UnitResidents, Some(u)) == [UnitResidents];
  }

  /** A resident's sidebar: the overview, the bills, and the two
      communication pages; the property-management section disappears. */
  lemma ResidentSidebar(u: User)
    requires u.role == Resident
    ensures Sidebar(MenuSections, Some(u))
         == [Overview, Section("Financial", [Bills]), Communication]
  {
    SidebarOfFour(Overview, PropertyManagement, Financial, Communication, Some(u));
    ResidentShown(u);
  }

  lemma ResidentShown(u: User)
    requires u.role == Resident
    ensures Shown(Overview, Some(u)) == [Overview]
    ensures Shown(PropertyManagement, Some(u)) == []
    ensures Shown(Financial, Some(u)) == [Section("Financial", [Bills])]
    ensures Shown(Communication, Some(u)) == [Communication]
  {
    FilterAll(Overview.items, ShownTo(Some(u)));
    FilterNone(PropertyManagement.items, ShownTo(Some(u)));
    FilterAll(Communication.items, ShownTo(Some(u)));
    VisibleOfThree(BuildingCosts, Bills, BuildingCharges, Some(u));
    assert Keep(BuildingCosts, Some(u)) == [] && Keep(BuildingCharges, Some(u)) == [];
    assert Keep(Bills, Some(u)) == [Bills];
    assert VisibleItems(Financial.items, Some(u)) == [Bills];
  }

  /** The Building Managers page is offered to admins only. */
  lemma ManagersPageAdminOnly(user: Option<User>)
    ensures "/managers" in OfferedPaths(Sidebar(MenuSections, user))
        <==> user.Some? && user.value.role == Admin
  {
    match user
    case None =>
      SignedOutSeesNothing();
    case Some(u) =>
      match u.role
      case Admin =>
        AdminSeesEverything(u);
        ManagersEntryOffered(Sidebar(MenuSections, user));
      case Manager =>
        ManagerSidebar(u);
        NoManagersEntry(Sidebar(MenuSections, user));
      case Resident =>
        ResidentSidebar(u);
        NoManagersEntry(Sidebar(MenuSections, user));
  }

  lemma ManagersEntryOffered(groups: seq<Section>)
    requires groups == MenuSections
    ensures "/managers" in OfferedPaths(groups)
  {
    assert PropertyManagement in groups && BuildingManagers in PropertyManagement.items;
  }

  lemma NoManagersEntry(groups: seq<Section>)
    requires || groups == [Overview, Section("Property Management", [Buildings, Units, UnitResidents]), Financial, Communication]
             || groups == [Overview, Section("Financial", [Bills]), Communication]
    ensures "/managers" !in OfferedPaths(groups)
  {
  }

  /** A resident is offered exactly the dashboard, the bills, the
      announcements and the notifications, in that order. */
  lemma ResidentRoutes(u: User)
    requires u.role == Resident
    ensures OfferedPaths(Sidebar(MenuSections, Some(u)))
         == ["/dashboard", "/bills", "/announcements", "/notifications"]
  {
    ResidentSidebar(u);
    OfferedOfThree(Overview, Section("Financial", [Bills]), Communication);
    assert ItemPaths([Dashboard]) == ["/dashboard"];
    assert ItemPaths([Bills]) == ["/bills"];
    assert [Announcements, Notices][1..] == [Notices];
    assert ItemPaths([Notices]) == ["/notifications"];
    assert ItemPaths([Announcements, Notices]) == ["/announcements"] + ["/notifications"];
  }

  lemma OfferedOfThree(a: Section, b: Section, c: Section)
    ensures OfferedPaths([a, b, c]) == ItemPaths(a.items) + (ItemPaths(b.items) + ItemPaths(c.items))
  {
    assert [a, b, c][1..] == [b, c] && [b, c][1..] == [c] && [c][1..] == [];
    assert OfferedPaths([c]) == ItemPaths(c.items) + [];
    assert ItemPaths(c.items) + [] == ItemPaths(c.items);
  }

  // ---------------------------------------------------------------------
  // The unread badge

  /** `loadUnreadCount`: without a user the count stays `prev`; otherwise
      it is the number of loaded notifications addressed to the user and
      still unread. */
  function LoadUnreadCount(prev: nat, user: Option<User>, loaded: seq<Notifications.Notification>): (n: nat)
    ensures user.None? ==> n == prev
    ensures user.Some? ==> n <= |loaded|
  {
    if user.None? then prev
    else Count(loaded, (m: Notifications.Notification) => m.userId == user.value.uid && m.isRead == "false")
  }

  /** The bell counts what the notifications page would show as unread for
      the same load: the user's notifications, newest first, then the
      unread ones among them. */
  lemma BadgeAgreesWithInbox(prev: nat, u: User, loaded: seq<Notifications.Notification>)
    ensures LoadUnreadCount(prev, Some(u), loaded)
         == Notifications.UnreadCount(Notifications.LoadedInbox(loaded, Some(u)))
  {
    UnreadOfUser(loaded, u);
    CountPermutation(Notifications.LoadedInbox(loaded, Some(u)), Notifications.ForUser(loaded, Some(u)),
                     Notifications.IsUnread);
  }

  /** Filtering by recipient and then counting the unread equals counting
      both conditions at once. */
  lemma {:induction false} UnreadOfUser(loaded: seq<Notifications.Notification>, u: User)
    ensures Count(loaded, (m: Notifications.Notification) => m.userId == u.uid && m.isRead == "false")
         == Notifications.UnreadCount(Notifications.ForUser(loaded, Some(u)))
  {
    if loaded != [] {
      UnreadOfUser(loaded[1..], u);
    }
  }

  /** The text the badge shows: nothing at zero, "9+" above nine, the digit
      otherwise. */
  function BadgeText(count: nat): (t: Option<string>)
    ensures t.None? <==> count == 0
    ensures count > 9 ==> t == Some("9+")
    ensures 0 < count <= 9 ==> t.Some? && |t.value| == 1 && '1' <= t.value[0] <= '9'
                               && Text.DigitValue(t.value[0]) == count
  {
    if count == 0 then None
    else if count > 9 then Some("9+")
    else Some([Text.DigitChar(count)])
  }

  /** Reading the badge back: a single digit gives the exact count, "9+"
      says only that there are more than nine. */
  lemma BadgeReadBack(count: nat, t: string)
    requires BadgeText(count) == Some(t)
    ensures t == "9+" <==> count > 9
    ensures t != "9+" ==> Text.DigitValue(t[0]) == count
  {
  }
}
