/**
 * The breadcrumb service: after each completed navigation it rebuilds the trail from the
 * router's first child route, a Dashboard link unless the page is the dashboard (or the
 * empty path) followed by the route's own label.
 */
module Breadcrumbs {
  import opened Common
  import opened Text

  /**
   * A crumb: the interface's `label` (held in `name`, since `label` is a Dafny keyword)
   * and the `url` it links to.
   */
  datatype Breadcrumb = Breadcrumb(name: string, url: string)

  /** What the handler reads of the first child route: its URL segments and its `data.breadcrumb`. */
  datatype RouteSnapshot = RouteSnapshot(segments: seq<string>, breadcrumb: Option<string>)

  const DashboardCrumb := Breadcrumb("Dashboard", "/dashboard")

  /** The segments joined by `/`. */
  function RoutePath(route: RouteSnapshot): string {
    Join("/", route.segments)
  }

  /** `routeData['breadcrumb']` is truthy: present and not the empty string. */
  predicate HasLabel(route: RouteSnapshot) {
    route.breadcrumb.Some? && route.breadcrumb.value != ""
  }

  predicate LinksDashboard(path: string) {
    path != "dashboard" && path != ""
  }

  /** The trail for a navigation whose root has the given first child, if any. */
  function Trail(firstChild: Option<RouteSnapshot>): seq<Breadcrumb> {
    match firstChild
    case None => []
    case Some(route) =>
      var path := RoutePath(route);
      (if LinksDashboard(path) then [DashboardCrumb] else [])
      + (if HasLabel(route) then [Breadcrumb(route.breadcrumb.value, "/" + path)] else [])
  }

  /**
   * No child route, no trail. Otherwise the trail has the Dashboard crumb first exactly
   * when the path is neither `dashboard` nor empty, ends with the label crumb at `/` +
   * path exactly when there is a label, and has nothing else: at most two crumbs, every
   * url absolute, no url twice.
   */
  lemma {:induction false} TrailCorrect(firstChild: Option<RouteSnapshot>)
    ensures firstChild.None? ==> Trail(firstChild) == []
    ensures |Trail(firstChild)| <= 2
    ensures firstChild.Some? ==>
      var route, t := firstChild.value, Trail(firstChild);
      && |t| == (if LinksDashboard(RoutePath(route)) then 1 else 0) + (if HasLabel(route) then 1 else 0)
      && (LinksDashboard(RoutePath(route)) ==> t[0] == DashboardCrumb)
      && (HasLabel(route) ==> t[|t| - 1] == Breadcrumb(route.breadcrumb.value, "/" + RoutePath(route)))
    ensures forall i :: 0 <= i < |Trail(firstChild)| ==>
      Trail(firstChild)[i].url != "" && Trail(firstChild)[i].url[0] == '/'
    ensures forall i, j :: 0 <= i < j < |Trail(firstChild)| ==> Trail(firstChild)[i].url != Trail(firstChild)[j].url
  {
    if firstChild.Some? {
      var route, t := firstChild.value, Trail(firstChild);
      var path := RoutePath(route);
      if |t| == 2 {
        assert t[0] == DashboardCrumb && t[1].url == "/" + path;
        assert t[1].url != t[0].url by {
          assert ("/" + path)[1..] == path;
          assert "/dashboard"[1..] == "dashboard";
        }
      }
    }
  }

  /** The service's `breadcrumbs` signal. */
  class BreadcrumbService {
    var breadcrumbs: seq<Breadcrumb>

    constructor()
      ensures breadcrumbs == []
    {
      breadcrumbs := [];
    }

    /** The `NavigationEnd` handler: the trail is built by pushes, then published. */
    method OnNavigationEnd(firstChild: Option<RouteSnapshot>)
      modifies this
      ensures breadcrumbs == Trail(firstChild)
    {
      var crumbs: seq<Breadcrumb> := [];
      if firstChild.Some? {
        var route := firstChild.value;
        var routePath := Join("/", route.segments);
        if routePath != "dashboard" && routePath != "" {
          crumbs := crumbs + [DashboardCrumb];
        }
        var routeData := route.breadcrumb;
        if routeData.Some? && routeData.value != "" {
          crumbs := crumbs + [Breadcrumb(routeData.value, "/" + routePath)];
        }
      }
      breadcrumbs := crumbs;
    }
  }
}
