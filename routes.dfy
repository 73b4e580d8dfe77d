/** The page-name to path table behind every link of the portal. */
module Routes {

  /** The known pages and their paths. */
  const PageRoutes: map<string, string> := map[
    "Home" := "/",
    "Dashboard" := "/dashboard",
    "BookAppointment" := "/book-appointment",
    "MyAppointments" := "/my-appointments",
    "MyRecords" := "/my-records",
    "MyInvoices" := "/my-invoices",
    "HealthChat" := "/health-chat"
  ]

  /** `createPageUrl`: the page's path, or the home path for a page the table does not know. */
  function CreatePageUrl(page: string): (url: string)
    ensures page in PageRoutes ==> url == PageRoutes[page]
    ensures page !in PageRoutes ==> url == "/"
    ensures url[0] == '/'
  {
    if page in PageRoutes && PageRoutes[page] != "" then PageRoutes[page] else "/"
  }

  /** The seven pages and where each leads. */
  lemma KnownPages()
    ensures PageRoutes.Keys == {"Home", "Dashboard", "BookAppointment", "MyAppointments", "MyRecords", "MyInvoices", "HealthChat"}
    ensures CreatePageUrl("Home") == "/"
    ensures CreatePageUrl("Dashboard") == "/dashboard"
    ensures CreatePageUrl("BookAppointment") == "/book-appointment"
    ensures CreatePageUrl("MyAppointments") == "/my-appointments"
    ensures CreatePageUrl("MyRecords") == "/my-records"
    ensures CreatePageUrl("MyInvoices") == "/my-invoices"
    ensures CreatePageUrl("HealthChat") == "/health-chat"
  {
  }

  /** No two pages share a path, so a path names its page. */
  lemma PathsAreDistinct(p: string, q: string)
    requires p in PageRoutes && q in PageRoutes && p != q
    ensures CreatePageUrl(p) != CreatePageUrl(q)
  {
    KnownPages();
  }

  /** A link leads to the home path exactly when it names the home page or an unknown page. */
  lemma HomeIsTheDefault(page: string)
    ensures CreatePageUrl(page) == "/" <==> page == "Home" || page !in PageRoutes
  {
    if page in PageRoutes && page != "Home" {
      KnownPages();
      PathsAreDistinct(page, "Home");
    }
  }

  /** The pages of the dashboard's side menu. */
  const NavPages: seq<string> := ["Dashboard", "MyAppointments", "MyRecords", "MyInvoices", "HealthChat"]

  /** Every menu entry leads to its own page, none of them to the home path. */
  lemma NavLinksAreDistinct(i: nat, j: nat)
    requires i < |NavPages| && j < |NavPages|
    ensures CreatePageUrl(NavPages[i]) != "/"
    ensures i != j ==> CreatePageUrl(NavPages[i]) != CreatePageUrl(NavPages[j])
  {
    HomeIsTheDefault(NavPages[i]);
    if i != j {
      PathsAreDistinct(NavPages[i], NavPages[j]);
    }
  }
}
