/**
 * The admin shell (`AdminPanel`): the grouped sidebar navigation, the
 * `tab` query parameter that picks the panel, the header label of the
 * active item, the sidebar width, the avatar initials and the logout
 * button.
 */
module AdminPanel {
  import opened Wrappers
  import opened Types
  import opened Strings
  import PortfolioStore
  import Toast

  datatype NavItem = NavItem(id: string, title: string)
  datatype NavGroup = NavGroup(title: string, items: seq<NavItem>)

  /** `NAV_GROUPS`. */
  function NavGroups(): seq<NavGroup> {
    [ NavGroup("Overview", [NavItem("dashboard", "Dashboard")]),
      NavGroup("Content", [NavItem("projects", "Projects"), NavItem("skills", "Tech Stack"), NavItem("certificates", "Certificates")]),
      NavGroup("System", [NavItem("settings", "Settings")]) ]
  }

  /** `groups.flatMap(g => g.items)`. */
  function Flatten(groups: seq<NavGroup>): (r: seq<NavItem>)
    ensures forall g, it :: g in groups && it in g.items ==> it in r
    ensures forall it :: it in r ==> exists g :: g in groups && it in g.items
  {
    if groups == [] then [] else groups[0].items + Flatten(groups[1..])
  }

  /** `ALL_NAV_ITEMS`. */
  function AllNavItems(): seq<NavItem> {
    Flatten(NavGroups())
  }

  function NavIds(items: seq<NavItem>): (r: seq<string>)
    ensures |r| == |items| && forall k :: 0 <= k < |items| ==> r[k] == items[k].id
  {
    seq(|items|, k requires 0 <= k < |items| => items[k].id)
  }

  /** The sidebar lists exactly the five panels, in this order, each once. */
  lemma NavIdsExact()
    ensures NavIds(AllNavItems()) == ["dashboard", "projects", "skills", "certificates", "settings"]
    ensures Distinct(NavIds(AllNavItems()))
  {
    var g := NavGroups();
    assert Flatten(g[2..]) == g[2].items + Flatten(g[3..]);
    assert Flatten(g[1..]) == g[1].items + Flatten(g[2..]);
    assert AllNavItems() == g[0].items + g[1].items + g[2].items;
  }

  /** The panels the shell can show. */
  datatype Panel = Dashboard | Projects | Skills | Certificates | Settings

  /** The id under which a panel is listed. */
  function PanelId(p: Panel): string {
    match p
    case Dashboard => "dashboard"
    case Projects => "projects"
    case Skills => "skills"
    case Certificates => "certificates"
    case Settings => "settings"
  }

  /** `searchParams.get('tab') || 'dashboard'`: a missing or empty `tab` means the dashboard. */
  function ActiveTab(tab: Option<string>): (r: string)
    ensures tab.GetOr("") == "" ==> r == "dashboard"
    ensures tab.GetOr("") != "" ==> r == tab.value
  {
    Or(tab.GetOr(""), "dashboard")
  }

  /** `renderPanel`: each known id shows its panel; anything else shows the dashboard. */
  function RenderPanel(active: string): (p: Panel)
    ensures active == PanelId(p) || p == Dashboard
  {
    match active
    case "dashboard" => Dashboard
    case "projects" => Projects
    case "skills" => Skills
    case "certificates" => Certificates
    case "settings" => Settings
    case _ => Dashboard
  }

  /** Selecting a panel's id renders that panel, and an id outside the sidebar renders the dashboard. */
  lemma RenderPanelRoundTrip(p: Panel, other: string)
    requires other !in NavIds(AllNavItems())
    ensures RenderPanel(PanelId(p)) == p
    ensures RenderPanel(other) == Dashboard
  {
    NavIdsExact();
  }

  /** `ALL_NAV_ITEMS.find(n => n.id === activePanel)`. */
  function FindItem(items: seq<NavItem>, active: string): (r: Option<NavItem>)
    ensures r.Some? ==> r.value in items && r.value.id == active
    ensures r.None? <==> active !in NavIds(items)
  {
    if items == [] then None
    else if items[0].id == active then Some(items[0])
    else
      var rest := FindItem(items[1..], active);
      assert NavIds(items) == [items[0].id] + NavIds(items[1..]);
      rest
  }

  /** The header names the panel the sidebar entry stands for; an unknown tab has no label. */
  lemma ActiveItemLabel(p: Panel, other: string)
    requires other !in NavIds(AllNavItems())
    ensures FindItem(AllNavItems(), PanelId(p)).Some?
    ensures FindItem(AllNavItems(), "skills") == Some(NavItem("skills", "Tech Stack"))
    ensures FindItem(AllNavItems(), other).None?
  {
    NavIdsExact();
    var items := AllNavItems();
    assert items[0].id == "dashboard" && items[1].id == "projects" && items[2] == NavItem("skills", "Tech Stack");
  }

  /** `SIDEBAR_W`. */
  function SidebarWidth(collapsed: bool): (w: nat)
    ensures collapsed ==> w == 80
    ensures !collapsed ==> w == 240
  {
    if collapsed then 80 else 240
  }

  /** `split(' ').map(w => w[0]).join('')`: the first letter of every word; an empty word adds nothing. */
  function Heads(words: seq<string>): (r: string)
    ensures |r| <= |words|
  {
    if words == [] then ""
    else (if words[0] == "" then "" else [words[0][0]]) + Heads(words[1..])
  }

  /** Empty words contribute nothing. */
  lemma {:induction false} HeadsSkipEmpty(a: seq<string>, b: seq<string>)
    ensures Heads(a + [""] + b) == Heads(a + b)
  {
    if a == [] {
      assert a + [""] + b == [""] + b && a + b == b;
      assert ([""] + b)[0] == "" && ([""] + b)[1..] == b;
    } else {
      assert (a + [""] + b)[1..] == a[1..] + [""] + b;
      assert (a + b)[1..] == a[1..] + b;
      HeadsSkipEmpty(a[1..], b);
    }
  }

  /** Non-empty words each give their first letter, in order. */
  lemma {:induction false} HeadsOfWords(words: seq<string>)
    requires forall k :: 0 <= k < |words| ==> words[k] != ""
    ensures |Heads(words)| == |words|
    ensures forall k :: 0 <= k < |words| ==> Heads(words)[k] == words[k][0]
  {
    if words != [] {
      HeadsOfWords(words[1..]);
    }
  }

  /** The avatar initials: 'AD' for an empty name, otherwise the first two word heads, upper-cased. */
  function Initials(name: string): (r: string)
    ensures name == "" ==> r == "AD"
    ensures |r| <= 2
  {
    if name == "" then "AD" else Upper(SliceTo(Heads(Split(name, ' ')), 2))
  }

  /** A name of single-spaced words gets the upper-cased first letters of its first two words. */
  lemma InitialsOfName(words: seq<string>)
    requires |words| > 0
    requires forall k :: 0 <= k < |words| ==> words[k] != "" && ' ' !in words[k]
    ensures var r := Initials(Join(words, " "));
      && |r| == (if |words| < 2 then |words| else 2)
      && forall k :: 0 <= k < |r| ==> r[k] == UpperChar(words[k][0])
  {
    assert [' '] == " ";
    SplitJoin(words, ' ');
    HeadsOfWords(words);
    assert Join(words, " ") != "" by {
      if |words| > 1 {
        JoinedHead(words, " ");
      }
    }
  }

  /** `handleLogout`: signs out, says so, and goes to the login route. */
  method HandleLogout(store: PortfolioStore.Store, toasts: Toast.ToastQueue, signOutSucceeds: bool, now: nat)
    returns (route: string)
    modifies store`isAdminLoggedIn, toasts`toasts
    ensures store.isAdminLoggedIn == (old(store.isAdminLoggedIn) && !signOutSucceeds)
    ensures toasts.toasts == old(toasts.toasts) + Toast.NewToasts(toasts.provided, Info, "Logged out successfully.", now)
    ensures route == "/admin"
  {
    store.LogoutAdmin(signOutSucceeds);
    var _ := toasts.ShowToast(Info, "Logged out successfully.", now);
    route := "/admin";
  }
}
