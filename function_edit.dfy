/**
 * The function-edit component's own state: the view it shows, the function it resolved, the
 * editor tab, and the one polling task it owns at a time.
 */
module FunctionEdit {
  import opened Wrappers
  import opened Notifications
  import opened Navigation

  /** The resolved function app: the site's resource id and its sku. */
  datatype FunctionAppContext = FunctionAppContext(siteId: string, sku: string)

  datatype FunctionInfo = FunctionInfo(name: string)

  /** The outcome of fetching the selected function. */
  datatype FunctionResult = Successful(result: FunctionInfo) | Failed(message: string, errorId: string)

  /** One subscription to the periodic poll; the timer behind it is not modelled. */
  class PollingTask {
    var unsubscribed: bool

    constructor ()
      ensures !unsubscribed
    {
      unsubscribed := false;
    }

    method Unsubscribe()
      modifies this
      ensures unsubscribed
    {
      unsubscribed := true;
    }
  }

  /** The shared UI state that holds the top bar's notifications. */
  class GlobalStateService {
    var topBarNotifications: seq<Notification>

    constructor ()
      ensures topBarNotifications == []
    {
      topBarNotifications := [];
    }

    /** Replaces the whole set of notifications; nothing is merged. */
    method SetTopBarNotifications(notifications: seq<Notification>)
      modifies this
      ensures topBarNotifications == notifications
    {
      topBarNotifications := notifications;
    }
  }

  class FunctionEditComponent {
    var viewInfo: Option<ViewInfo>
    var context: Option<FunctionAppContext>
    var selectedFunction: Option<FunctionInfo>
    var tabId: string
    var pollingTask: PollingTask?
    /** Every polling task this component has started. */
    ghost var startedTasks: set<PollingTask>

    const globalState: GlobalStateService
    /** `v => FunctionsVersionInfoHelper.needToUpdateRuntime(configService.FunctionsVersionInfo, v)` */
    const needToUpdateRuntime: string -> bool
    const constants: SettingConstants

    /** The task slot holds the latest task started, and every earlier task is unsubscribed. */
    ghost predicate Valid()
      reads this, startedTasks
    {
      (pollingTask != null ==> pollingTask in startedTasks)
      && forall t :: t in startedTasks && t != pollingTask ==> t.unsubscribed
    }

    /** The started tasks still subscribed. */
    ghost function LiveTasks(): set<PollingTask>
      reads this, startedTasks
    {
      set t | t in startedTasks && !t.unsubscribed
    }

    /** At most one polling task is ever live, and it is the one in the slot. */
    lemma AtMostOneLiveTask()
      requires Valid()
      ensures LiveTasks() <= (if pollingTask == null then {} else {pollingTask})
      ensures |LiveTasks()| <= 1
    {
      var slot: set<PollingTask> := if pollingTask == null then {} else {pollingTask};
      assert LiveTasks() <= slot;
      SubsetCardinality(LiveTasks(), slot);
    }

    constructor (globalState: GlobalStateService, needToUpdateRuntime: string -> bool, constants: SettingConstants)
      ensures Valid()
      ensures this.globalState == globalState && this.needToUpdateRuntime == needToUpdateRuntime
      ensures this.constants == constants
      ensures viewInfo.None? && context.None? && selectedFunction.None? && tabId == ""
      ensures pollingTask == null && startedTasks == {} && LiveTasks() == {}
    {
      this.globalState := globalState;
      this.needToUpdateRuntime := needToUpdateRuntime;
      this.constants := constants;
      viewInfo := None;
      context := None;
      selectedFunction := None;
      tabId := "";
      pollingTask := null;
      startedTasks := {};
    }

    /** `_setupPollingTasks`: cancels the task in the slot, if any, and starts a new one. */
    method SetupPollingTasks()
      requires Valid()
      modifies this, pollingTask
      ensures Valid()
      ensures pollingTask != null && fresh(pollingTask) && !pollingTask.unsubscribed
      ensures startedTasks == old(startedTasks) + {pollingTask}
      ensures LiveTasks() == {pollingTask}
      ensures old(pollingTask) != null ==> old(pollingTask).unsubscribed
      ensures viewInfo == old(viewInfo) && context == old(context)
      ensures selectedFunction == old(selectedFunction) && tabId == old(tabId)
    {
      if pollingTask != null {
        pollingTask.Unsubscribe();
      }
      var task := new PollingTask();
      pollingTask := task;
      startedTasks := startedTasks + {task};
    }

    /** `ngOnDestroy`: unsubscribes the task in the slot, leaving no live task. */
    method NgOnDestroy()
      requires Valid()
      modifies pollingTask
      ensures Valid()
      ensures LiveTasks() == {}
    {
      if pollingTask != null {
        pollingTask.Unsubscribe();
      }
    }

    /** The second `switchMap` of the navigation stream: the app context is stored as soon as it
        arrives, before the function itself is fetched; ticks of a running task read it from then on. */
    method StoreAppContext(appContext: FunctionAppContext)
      requires Valid()
      modifies this
      ensures Valid()
      ensures context == Some(appContext)
      ensures viewInfo == old(viewInfo) && selectedFunction == old(selectedFunction) && tabId == old(tabId)
      ensures pollingTask == old(pollingTask) && startedTasks == old(startedTasks)
      ensures LiveTasks() == old(LiveTasks())
    {
      context := Some(appContext);
    }

    /** The navigation subscriber, once the function has been fetched: on success it stores the
        function, restarts polling and picks the tab; a failure is only reported. */
    method OnFunctionResolved(functionResult: FunctionResult)
      requires Valid()
      requires viewInfo.Some?
      modifies this, pollingTask
      ensures Valid()
      ensures context == old(context) && viewInfo == old(viewInfo)
      ensures functionResult.Successful? ==>
        selectedFunction == Some(functionResult.result)
        && tabId == TabId(viewInfo.value.resourceId)
        && pollingTask != null && fresh(pollingTask)
        && startedTasks == old(startedTasks) + {pollingTask}
        && LiveTasks() == {pollingTask}
        && (old(pollingTask) != null ==> old(pollingTask).unsubscribed)
      ensures functionResult.Failed? ==>
        selectedFunction == old(selectedFunction) && tabId == old(tabId)
        && pollingTask == old(pollingTask) && startedTasks == old(startedTasks)
        && LiveTasks() == old(LiveTasks())
    {
      if functionResult.Successful? {
        selectedFunction := Some(functionResult.result);
        SetupPollingTasks();
        tabId := TabId(viewInfo.value.resourceId);
      }
    }

    /** `_handlePollingTaskResult`: publishes the notifications derived from one tick. */
    method HandlePollingTaskResult(result: Option<PollResult>)
      requires context.Some?
      modifies globalState
      ensures result.Some? ==>
        globalState.topBarNotifications == Expected(result.value, context.value.sku, needToUpdateRuntime, constants)
      ensures result.None? ==> globalState.topBarNotifications == old(globalState.topBarNotifications)
    {
      if result.Some? {
        var notifications := DeriveNotifications(result.value, context.value.sku, needToUpdateRuntime, constants);
        globalState.SetTopBarNotifications(notifications);
      }
    }
  }

  /** A subset is no larger than its superset. */
  lemma {:induction false} SubsetCardinality<T>(a: set<T>, b: set<T>)
    requires a <= b
    ensures |a| <= |b|
    decreases |b|
  {
    if b != {} {
      var x :| x in b;
      SubsetCardinality(a - {x}, b - {x});
    }
  }
}
