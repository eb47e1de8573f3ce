/** Which screen the component shows: the login screen when no user is present,
    otherwise the panel that the selected tab and the user's role pick. */
module Routing {

  datatype Panel = Dashboard | Mining | Shop | WalletView | Missions | Referral | Support | Admin

  datatype Screen = Auth | Main(panel: Panel)

  /** The tab value that names each panel. */
  function TabOf(p: Panel): string
  {
    match p
    case Dashboard => "dashboard"
    case Mining => "mining"
    case Shop => "shop"
    case WalletView => "wallet"
    case Missions => "missions"
    case Referral => "referral"
    case Support => "support"
    case Admin => "admin"
  }

  /** The tab values the switch has a case for. */
  const RoutedTabs: set<string> :=
    {"dashboard", "mining", "shop", "wallet", "missions", "referral", "support", "admin"}

  /** The panel switch: each listed tab opens its own panel, except that the
      admin panel needs the admin role; anything else falls back to the dashboard. */
  function Route(tab: string, role: string): (r: Panel)
    ensures r == Admin <==> tab == "admin" && role == "admin"
    ensures r != Dashboard ==> TabOf(r) == tab
    ensures tab in RoutedTabs && tab != "admin" ==> TabOf(r) == tab
    ensures tab == "admin" && role != "admin" ==> r == Dashboard
    ensures tab !in RoutedTabs ==> r == Dashboard
  {
    match tab
    case "dashboard" => Dashboard
    case "mining" => Mining
    case "shop" => Shop
    case "wallet" => WalletView
    case "missions" => Missions
    case "referral" => Referral
    case "support" => Support
    case "admin" => if role == "admin" then Admin else Dashboard
    case _ => Dashboard
  }

  /** Every panel is reached from its own tab by a user allowed to see it. */
  lemma RouteReachesEveryPanel(p: Panel, role: string)
    requires p == Admin ==> role == "admin"
    ensures Route(TabOf(p), role) == p
  {
  }
}
