# Function-edit component of the Azure Functions portal client

This project models the decision logic of `FunctionEditComponent`, the Angular component that
edits one Azure Function:

- **Notification derivation.** On every poll tick the component joins three ARM responses: the
  site config, the app settings and the slots list. Each may be absent. From them it builds the
  top-bar notifications in a fixed order and publishes the list, replacing the previous one.
  `Notifications.DeriveNotifications` builds the list by successive pushes and a tri-state
  "is latest runtime" flag, as the handler does. It is proved equal to `Notifications.Expected`, a
  reference definition: each kind of notification has its own rule (`Raises`) and the list keeps
  the order alwaysOn, runtimeV2, newRuntimeVersion, slotsHostId. The lemmas in
  `NotificationProperties` state each rule about the published list.
- **Navigation filter.** `Navigation.AcceptsNavigation` decides whether the component instance
  answers a navigation event, given the view it already shows. `Navigation.Shown` folds a stream of
  events through the filter, each accepted event becoming the shown view.
- **Editor tab.** `Navigation.TabId` splits the resource id on `/` and picks `develop` for a function
  of a site or slot, or else the last path piece. `JsStrings` models `split`, its inverse `join` and
  ASCII `toLowerCase`.
- **Polling-task slot.** `FunctionEdit.FunctionEditComponent` holds at most one live polling task.
  Starting a poll unsubscribes the previous task. Destroying the component leaves no live task.

Inputs the component gets from collaborators are parameters:
- the decoded ARM responses (`PollResult`);
- the site's sku (`FunctionAppContext`);
- `needToUpdateRuntime`, which stands for `FunctionsVersionInfoHelper.needToUpdateRuntime` with its
  version-info argument fixed;
- the values of `Constants` the rules read (`SettingConstants`).

Two facts about the code worth stating on their own:
- No id repeats in a tick's list (`PublishedOrderedAndUnique`).
- With no config response no always-on warning is published (`AlwaysOnWarning`).

## Model

| member | source | states |
|---|---|---|
| Notifications.DeriveNotifications | AzureFunctions.AngularClient/src/app/function-edit/function-edit.component.ts:165-252 | the list built by the pushes under the nested conditions, with the tri-state latest-runtime flag, equals the reference list `Expected`: one rule per id, in publishing order |
| NotificationProperties.ExpectedIsTemplatesOfRaised | AzureFunctions.AngularClient/src/app/function-edit/function-edit.component.ts:175-245 | the published ids are exactly the raised ids; every published notification carries the fixed icon, learn-more link and click target of its kind |
| NotificationProperties.PublishedIffRaised | AzureFunctions.AngularClient/src/app/function-edit/function-edit.component.ts:168-250 | a notification id is in the published list if and only if its rule raises it |
| NotificationProperties.PublishedOrderedAndUnique | AzureFunctions.AngularClient/src/app/function-edit/function-edit.component.ts:168-250 | published ids follow the order alwaysOn, runtimeV2, newRuntimeVersion, slotsHostId; none repeats; runtimeV2 and newRuntimeVersion never appear together |
| NotificationProperties.AlwaysOnWarning | AzureFunctions.AngularClient/src/app/function-edit/function-edit.component.ts:170-189 | with the config present, alwaysOn is published exactly when `alwaysOn` is not `true` and the sku is not `Dynamic`; with the config absent it never is |
| NotificationProperties.BetaRuntime | AzureFunctions.AngularClient/src/app/function-edit/function-edit.component.ts:193-217 | runtime version `beta` publishes runtimeV2 and never newRuntimeVersion, whatever the version helper answers |
| NotificationProperties.OtherRuntime | AzureFunctions.AngularClient/src/app/function-edit/function-edit.component.ts:193-217 | any other version: no runtimeV2; an absent or empty version always publishes newRuntimeVersion; a non-empty one publishes it exactly when the helper asks for an update |
| NotificationProperties.SlotsWarning | AzureFunctions.AngularClient/src/app/function-edit/function-edit.component.ts:232-246 | slotsHostId is published exactly when app settings and slots are present, there is a slot, and the storage setting is absent or differs from the expected value ignoring case |
| NotificationProperties.MissingAppSettings | AzureFunctions.AngularClient/src/app/function-edit/function-edit.component.ts:191-248 | without app settings only the always-on warning can be published, even when slots are present |
| NotificationProperties.FailedTickClearsNotifications | AzureFunctions.AngularClient/src/app/function-edit/function-edit.component.ts:159-250 | the empty result substituted for a failed tick publishes the empty list |
| NotificationProperties.OutdatedSiteWithSlots | AzureFunctions.AngularClient/src/app/function-edit/function-edit.component.ts:168-250 | always-on off, an outdated version, one slot and a non-matching storage setting publish alwaysOn, newRuntimeVersion, slotsHostId in that order |
| FunctionEdit.FunctionEditComponent.HandlePollingTaskResult | AzureFunctions.AngularClient/src/app/function-edit/function-edit.component.ts:165-252 | a present tick result replaces the top-bar notifications with the derived list for the context's sku; an absent one publishes nothing |
| FunctionEdit.GlobalStateService.SetTopBarNotifications | AzureFunctions.AngularClient/src/app/function-edit/function-edit.component.ts:250 | the top bar's notifications become exactly the given list |
| JsStrings.ToLower | AzureFunctions.AngularClient/src/app/function-edit/function-edit.component.ts:235-238 | same length; every position is the lower-cased character of the input |
| JsStrings.ToLowerEqualIff | AzureFunctions.AngularClient/src/app/function-edit/function-edit.component.ts:235-238 | two strings lower-case to the same string exactly when they are equal ignoring letter case |
| JsStrings.Split | AzureFunctions.AngularClient/src/app/function-edit/function-edit.component.ts:113 | splitting yields at least one piece and no piece contains the separator |
| JsStrings.JoinSplit | AzureFunctions.AngularClient/src/app/function-edit/function-edit.component.ts:113 | joining the pieces of a split gives back the resource id |
| JsStrings.SplitJoin | AzureFunctions.AngularClient/src/app/function-edit/function-edit.component.ts:113 | splitting a join of separator-free pieces gives back the pieces |
| JsStrings.LastPieceIsTrailing | AzureFunctions.AngularClient/src/app/function-edit/function-edit.component.ts:118 | the last piece is the text after the last separator; it is a proper suffix when there are several pieces and the whole string when there is one |
| Navigation.Shown | AzureFunctions.AngularClient/src/app/function-edit/function-edit.component.ts:60-83 | after any stream of events, the shown view, if any, is one of the events and is a function dashboard |
| Navigation.ShownStep | AzureFunctions.AngularClient/src/app/function-edit/function-edit.component.ts:60-83 | one more event either leaves the shown view alone or replaces it by that event; a replacement keeps the dashboard type and changes the resource id; a shown view never disappears; conversely the first function-dashboard event, and an event of the shown dashboard type for another resource id, do become the shown view |
| Navigation.DashboardTypeIsFixed | AzureFunctions.AngularClient/src/app/function-edit/function-edit.component.ts:61-74 | once a view is shown, every later stream of events keeps a view of the same dashboard type |
| Navigation.ShownTypeIsFirstFunctionDashboard | AzureFunctions.AngularClient/src/app/function-edit/function-edit.component.ts:77-83 | a view is shown exactly when some event is for a function dashboard, and its dashboard type is that of the first such event |
| Navigation.SameOrOtherDashboardIgnored | AzureFunctions.AngularClient/src/app/function-edit/function-edit.component.ts:61-74 | the event already shown, or one for another dashboard type, is ignored |
| Navigation.TabIdIsTrailingName | AzureFunctions.AngularClient/src/app/function-edit/function-edit.component.ts:113-119 | `develop` for the 13-piece slot and 11-piece site function shapes; otherwise the text after the last `/` |
| Navigation.TabIdOfPath | AzureFunctions.AngularClient/src/app/function-edit/function-edit.component.ts:113-119 | for a resource id joined from `/`-free pieces, the tab is `develop` for the two function shapes and the last piece otherwise |
| Navigation.SiteFunctionOpensDevelop | AzureFunctions.AngularClient/src/app/function-edit/function-edit.component.ts:114-116 | a site-level function resource id opens the `develop` tab |
| Navigation.SlotFunctionOpensDevelop | AzureFunctions.AngularClient/src/app/function-edit/function-edit.component.ts:114-116 | a slot-level function resource id opens the `develop` tab |
| Navigation.FunctionSubPageOpensItsTab | AzureFunctions.AngularClient/src/app/function-edit/function-edit.component.ts:117-119 | a resource id ending in a sub-page (`integrate`) opens that tab |
| FunctionEdit.FunctionEditComponent.constructor | AzureFunctions.AngularClient/src/app/function-edit/function-edit.component.ts:44-48 | a new component has no view, context or function, the empty tab id, and no polling task |
| FunctionEdit.FunctionEditComponent.SetupPollingTasks | AzureFunctions.AngularClient/src/app/function-edit/function-edit.component.ts:142-147 | the previous task, if any, is unsubscribed and a fresh live task fills the slot; it is the only live task |
| FunctionEdit.FunctionEditComponent.AtMostOneLiveTask | AzureFunctions.AngularClient/src/app/function-edit/function-edit.component.ts:142-147 | while the slot invariant holds, at most one started task is live, and it is the one in the slot |
| FunctionEdit.FunctionEditComponent.NgOnDestroy | AzureFunctions.AngularClient/src/app/function-edit/function-edit.component.ts:130-135 | after destruction no polling task is live |
| FunctionEdit.FunctionEditComponent.StoreAppContext | AzureFunctions.AngularClient/src/app/function-edit/function-edit.component.ts:101-104 | the fetched app context is stored before the function is fetched; nothing else changes |
| FunctionEdit.FunctionEditComponent.OnFunctionResolved | AzureFunctions.AngularClient/src/app/function-edit/function-edit.component.ts:108-127 | on success the function is stored, polling restarts with a single live task and the tab is `TabId` of the shown resource id; on failure nothing changes; context and view are untouched |
| JsStrings.LowerChar | AzureFunctions.AngularClient/src/app/function-edit/function-edit.component.ts:235-238 | the result is never an upper-case ASCII letter; letters stay letters; any other character is its own lower case |
| FunctionEdit.PollingTask.Unsubscribe | AzureFunctions.AngularClient/src/app/function-edit/function-edit.component.ts:143-145 | the task is unsubscribed afterwards |

## Left out

- Reactive-stream scheduling is not modelled: `timer(1, 60000)`, `concatMap`, `zip`, `switchMap`, `takeUntil`, `distinctUntilChanged` and `catch`. It is asynchronous scheduling. Only the per-tick handler, the failed-tick value `{}` and the task-slot replacement are modelled.
- `.catch(() => Observable.of({}))` (line 159) replaces the timer stream after a failure: the empty result is published once and the stream then completes. The model does not capture that polling stops until the next `_setupPollingTasks`: the task in the slot still counts as live.
- HTTP and ARM calls and JSON decoding are inputs, not operations: `getArm`, `postArm`, `getSlotsList`, `pingScmSite`, `getAppContext`, `getFunction` and `.json()`. The decoded fields arrive as optional values. `alwaysOn` is a boolean or absent. App-setting values are strings.
- `FunctionsVersionInfoHelper.needToUpdateRuntime` is not part of this model. It is the parameter `needToUpdateRuntime`, with the version-info argument fixed.
- The values of `Constants` and `NotificationIds` are not part of this model. Setting names and the expected storage value are parameters. Notification ids are an enumeration.
- `DashboardType` members other than the four function dashboards are not part of this model. They are `OtherDashboard(name)`.
- Translated messages (`_translateService.instant`) are not modelled. The click callbacks are modelled only by the site tab they navigate to.
- The analytics call `trackEvent`, busy-state calls, `showComponentError`, `onEditorChange` and `logAction` are UI side effects and are left out.
- The navigable base class is not part of this model. Its storing of each accepted view info is modelled by the fold `Navigation.Shown`; `ngUnsubscribe` is not modelled. `viewInfo` is a component field the caller sets.
- `distinctUntilChanged` on the navigation stream (line 94) is not modelled; `SameOrOtherDashboardIgnored` shows that the filter already drops a repeat of the shown event.
- FunctionEdit.FunctionEditComponent.HandlePollingTaskResult: requires the context to be set. The source reads it only under some branches, but polling starts only after the context is assigned (line 102 before line 111).
- JsStrings.ToLower: lowers ASCII letters only. Unicode case mapping is not modelled.
- JsStrings.LowerChar: maps only the ASCII letters A-Z; JavaScript `toLowerCase` also lowers non-ASCII letters (`É` to `é`, the Kelvin sign to `k`), which the model leaves unchanged.
- The GitHub configuration component and the template data are left out. They copy response fields into dropdowns or hold constant JSON, and have no decision logic.
