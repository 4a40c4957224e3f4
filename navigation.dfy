/**
 * Which navigation events the function-edit component answers, and which editor tab a
 * resource id opens.
 */
module Navigation {
  import opened Wrappers
  import opened JsStrings

  /** The tree view's dashboard types: the four function dashboards and every other kind,
      distinguished by name. */
  datatype DashboardType =
    | FunctionDashboard
    | FunctionIntegrateDashboard
    | FunctionManageDashboard
    | FunctionMonitorDashboard
    | OtherDashboard(name: string)

  /** The part of a navigation event the filter and the tab choice read. */
  datatype ViewInfo = ViewInfo(dashboardType: DashboardType, resourceId: string)

  predicate IsFunctionDashboard(t: DashboardType)
  {
    t == FunctionDashboard || t == FunctionIntegrateDashboard
    || t == FunctionManageDashboard || t == FunctionMonitorDashboard
  }

  /** The filter the component hands to its navigable base: `current` is the view info it
      already shows, if any, and `info` the incoming event. */
  function AcceptsNavigation(current: Option<ViewInfo>, info: ViewInfo): (accepted: bool)
  {
    if current.Some? then
      // the same dashboard for a different function: this instance handles it
      current.value.dashboardType == info.dashboardType && current.value.resourceId != info.resourceId
    else
      // first event: only the four function dashboards
      IsFunctionDashboard(info.dashboardType)
  }

  /** The view info the navigable base holds after a stream of events: each event the filter
      accepts becomes the shown view, every other event leaves it as it is. */
  function Shown(events: seq<ViewInfo>): (shown: Option<ViewInfo>)
    ensures shown.Some? ==> IsFunctionDashboard(shown.value.dashboardType)
    ensures shown.Some? ==> shown.value in events
    decreases |events|
  {
    if |events| == 0 then None
    else
      var before := Shown(events[..|events| - 1]);
      var info := events[|events| - 1];
      if AcceptsNavigation(before, info) then Some(info) else before
  }

  /** One more event: the shown view either stays, or is replaced by that event, which then has
      the same dashboard type and a different resource id; a first view is a function dashboard.
      Conversely, a first function-dashboard event, or an event of the shown dashboard type for
      another resource, does become the shown view. */
  lemma ShownStep(events: seq<ViewInfo>, info: ViewInfo)
    ensures var before, after := Shown(events), Shown(events + [info]);
      (after == before || after == Some(info))
      && (before.None? && after.Some? ==> IsFunctionDashboard(info.dashboardType))
      && (before.Some? && after != before ==>
            after.value.dashboardType == before.value.dashboardType
            && after.value.resourceId != before.value.resourceId)
      && (before.Some? ==> after.Some?)
      && (before.None? && IsFunctionDashboard(info.dashboardType) ==> after == Some(info))
      && ((before.Some? && info.dashboardType == before.value.dashboardType
           && info.resourceId != before.value.resourceId) ==> after == Some(info))
  {
    assert (events + [info])[..|events|] == events;
  }

  /** Once a view is shown, its dashboard type never changes, whatever events follow. */
  lemma {:induction false} DashboardTypeIsFixed(events: seq<ViewInfo>, later: seq<ViewInfo>)
    requires Shown(events).Some?
    ensures Shown(events + later).Some?
    ensures Shown(events + later).value.dashboardType == Shown(events).value.dashboardType
    decreases |later|
  {
    if |later| > 0 {
      var init := later[..|later| - 1];
      DashboardTypeIsFixed(events, init);
      assert events + later == (events + init) + [later[|later| - 1]];
      ShownStep(events + init, later[|later| - 1]);
    } else {
      assert events + later == events;
    }
  }

  /** A view is shown exactly when some event is for a function dashboard, and then the shown
      dashboard type is the type of the first such event. */
  lemma {:induction false} ShownTypeIsFirstFunctionDashboard(events: seq<ViewInfo>)
    ensures Shown(events).Some? <==> exists i :: 0 <= i < |events| && IsFunctionDashboard(events[i].dashboardType)
    ensures forall i :: 0 <= i < |events| && IsFunctionDashboard(events[i].dashboardType)
              && (forall k :: 0 <= k < i ==> !IsFunctionDashboard(events[k].dashboardType))
              ==> Shown(events).value.dashboardType == events[i].dashboardType
    decreases |events|
  {
    if |events| > 0 {
      var init := events[..|events| - 1];
      var info := events[|events| - 1];
      ShownTypeIsFirstFunctionDashboard(init);
      assert events == init + [info];
      ShownStep(init, info);
      forall i | 0 <= i < |events| && IsFunctionDashboard(events[i].dashboardType)
                 && (forall k :: 0 <= k < i ==> !IsFunctionDashboard(events[k].dashboardType))
        ensures Shown(events).value.dashboardType == events[i].dashboardType
      {
        if i < |init| {
          assert init[i] == events[i];
          assert forall k :: 0 <= k < i ==> init[k] == events[k];
        } else {
          assert forall k :: 0 <= k < |init| ==> init[k] == events[k];
        }
      }
      if exists i :: 0 <= i < |events| && IsFunctionDashboard(events[i].dashboardType) {
        var i :| 0 <= i < |events| && IsFunctionDashboard(events[i].dashboardType);
        if i < |init| {
          assert init[i] == events[i];
        }
      } else {
        assert !IsFunctionDashboard(info.dashboardType);
        assert forall i :: 0 <= i < |init| ==> init[i] == events[i];
      }
    }
  }

  /** Re-delivering the event the component already shows, or switching dashboard type, is ignored. */
  lemma SameOrOtherDashboardIgnored(current: ViewInfo, info: ViewInfo)
    requires info == current || info.dashboardType != current.dashboardType
    ensures !AcceptsNavigation(Some(current), info)
  {
  }

  const DevelopTabId := "develop"
  const FunctionsSegment := "functions"

  /** The editor tab for a resource id: `develop` for a function of a site
      (`/subscriptions/s/resourceGroups/g/providers/p/sites/a/functions/f`, 11 pieces) or of a slot
      (`.../sites/a/slots/x/functions/f`, 13 pieces); otherwise the last piece of the path. */
  function TabId(resourceId: string): (tab: string)
  {
    TabOfSegments(Split(resourceId, '/'))
  }

  /** The tab chosen from the pieces of a resource id. */
  function TabOfSegments(segments: seq<string>): (tab: string)
    requires |segments| >= 1
  {
    if IsFunctionPath(segments) then DevelopTabId
    else segments[|segments| - 1]
  }

  /** Whether the pieces name a function directly, at site or slot level. */
  predicate IsFunctionPath(segments: seq<string>)
  {
    (|segments| == 13 && segments[11] == FunctionsSegment) || (|segments| == 11 && segments[9] == FunctionsSegment)
  }

  /** Outside the two function shapes the tab is the text after the last '/' of the resource id. */
  lemma TabIdIsTrailingName(resourceId: string)
    ensures IsFunctionPath(Split(resourceId, '/')) ==> TabId(resourceId) == DevelopTabId
    ensures !IsFunctionPath(Split(resourceId, '/')) ==> IsTrailingPiece(resourceId, '/', TabId(resourceId))
  {
    LastPieceIsTrailing(resourceId, '/');
  }

  /** For a resource id built from '/'-free pieces, the tab is decided by those pieces. */
  lemma TabIdOfPath(segments: seq<string>)
    requires |segments| >= 1
    requires forall i :: 0 <= i < |segments| ==> '/' !in segments[i]
    ensures TabId(Join(segments, '/')) == if IsFunctionPath(segments) then DevelopTabId else segments[|segments| - 1]
  {
    SplitJoin(segments, '/');
    assert TabId(Join(segments, '/')) == TabOfSegments(segments);
  }

  /** The pieces of `/subscriptions/s/resourceGroups/g/providers/Microsoft.Web/sites/app`. */
  const SitePath: seq<string> :=
    ["", "subscriptions", "s", "resourceGroups", "g", "providers", "Microsoft.Web", "sites", "app"]

  lemma SitePathHasNoSlash()
    ensures forall i :: 0 <= i < |SitePath| ==> '/' !in SitePath[i]
  {
    forall i | 0 <= i < |SitePath| ensures '/' !in SitePath[i] {
      var p := SitePath[i];
      assert forall k :: 0 <= k < |p| ==> p[k] != '/';
    }
  }

  /** A site's function opens on `develop`. */
  lemma SiteFunctionOpensDevelop()
    ensures TabId(Join(SitePath + ["functions", "f"], '/')) == "develop"
  {
    SitePathHasNoSlash();
    TabIdOfPath(SitePath + ["functions", "f"]);
  }

  /** A slot's function opens on `develop`. */
  lemma SlotFunctionOpensDevelop()
    ensures TabId(Join(SitePath + ["slots", "staging", "functions", "f"], '/')) == "develop"
  {
    SitePathHasNoSlash();
    TabIdOfPath(SitePath + ["slots", "staging", "functions", "f"]);
  }

  /** A sub-page of a function opens on that page's tab. */
  lemma FunctionSubPageOpensItsTab()
    ensures TabId(Join(SitePath + ["functions", "f", "integrate"], '/')) == "integrate"
  {
    SitePathHasNoSlash();
    TabIdOfPath(SitePath + ["functions", "f", "integrate"]);
  }
}
