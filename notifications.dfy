/**
 * One poll tick of the function-edit component: the three optional ARM responses are turned
 * into the list of top-bar notifications (`_handlePollingTaskResult`).
 */
module Notifications {
  import opened Wrappers
  import opened JsStrings

  /** The `properties` of the site's `config/web` resource; only `alwaysOn` is read. `None` is an
      absent or `null` property. */
  datatype SiteConfig = SiteConfig(alwaysOn: Option<bool>)

  /** One slot of the site, as returned by the slots list; only the number of slots is read. */
  datatype SlotSite = SlotSite(id: string)

  /** The application settings are a JSON object whose values are strings. */
  type AppSettings = map<string, string>

  /** The joined result of one tick. Each part is absent when the tick failed (`{}`). */
  datatype PollResult = PollResult(
    configResponse: Option<SiteConfig>,
    appSettingResponse: Option<AppSettings>,
    slotsResponse: Option<seq<SlotSite>>)

  /** What the tick publishes after a failed fetch (`catch(() => Observable.of({}))`). */
  const FailedTick := PollResult(None, None, None)

  /** The values of `Constants` the rules read: the names of two app settings and the storage
      type the slots rule expects. */
  datatype SettingConstants = SettingConstants(
    runtimeVersionAppSettingName: string,
    slotsSecretStorageSettingsName: string,
    slotsSecretStorageSettingsValue: string)

  /** The site's `sku` for which always-on cannot be set. */
  const DynamicSku := "Dynamic"
  /** The runtime-version value that marks the v2 preview. */
  const BetaVersion := "beta"

  datatype NotificationId = AlwaysOn | RuntimeV2 | NewRuntimeVersion | SlotsHostId

  /** The site tab a notification's click navigates to. */
  datatype SiteTab = ApplicationSettings | FunctionRuntime

  /** A top-bar notification: its id, icon, learn-more link and where clicking it navigates
      (`None` for `clickCallback: null`). The translated message is not modelled. */
  datatype Notification = Notification(
    id: NotificationId,
    iconClass: string,
    learnMoreLink: string,
    clickTarget: Option<SiteTab>)

  const WarningIcon := "fa fa-exclamation-triangle warning"
  const InfoIcon := "fa fa-info link"
  const AlwaysOnLink := "https://go.microsoft.com/fwlink/?linkid=830855"
  const NewVersionLink := "https://go.microsoft.com/fwlink/?linkid=829530"

  /** The fixed fields each kind of notification is pushed with. */
  function Template(id: NotificationId): (n: Notification)
    ensures n.id == id
  {
    match id
    case AlwaysOn => Notification(AlwaysOn, WarningIcon, AlwaysOnLink, Some(ApplicationSettings))
    case RuntimeV2 => Notification(RuntimeV2, WarningIcon, "", Some(FunctionRuntime))
    case NewRuntimeVersion => Notification(NewRuntimeVersion, InfoIcon, NewVersionLink, Some(FunctionRuntime))
    case SlotsHostId => Notification(SlotsHostId, WarningIcon, "", None)
  }

  /** JavaScript truthiness of an optional string: present and non-empty. */
  predicate Truthy(v: Option<string>)
  {
    v.Some? && v.value != ""
  }

  // ---------------------------------------------------------------------------------------
  // Reference definition: one rule per notification, and the fixed order they appear in.
  // ---------------------------------------------------------------------------------------

  /** The order in which the handler pushes notifications. */
  const AllIds: seq<NotificationId> := [AlwaysOn, RuntimeV2, NewRuntimeVersion, SlotsHostId]

  /** The position of an id in AllIds. */
  function Rank(id: NotificationId): (k: nat)
    ensures k < |AllIds| && AllIds[k] == id
  {
    match id
    case AlwaysOn => 0
    case RuntimeV2 => 1
    case NewRuntimeVersion => 2
    case SlotsHostId => 3
  }

  function RuntimeVersion(settings: AppSettings, constants: SettingConstants): (version: Option<string>)
  {
    Lookup(settings, constants.runtimeVersionAppSettingName)
  }

  function SlotsStorageSetting(settings: AppSettings, constants: SettingConstants): (setting: Option<string>)
  {
    Lookup(settings, constants.slotsSecretStorageSettingsName)
  }

  /** Whether a tick with this result, on a site with this sku, raises notification `id`.
      `needToUpdateRuntime(v)` stands for `FunctionsVersionInfoHelper.needToUpdateRuntime(info, v)`. */
  ghost predicate Raises(id: NotificationId, result: PollResult, sku: string,
                         needToUpdateRuntime: string -> bool, constants: SettingConstants)
  {
    match id
    case AlwaysOn =>
      result.configResponse.Some? && result.configResponse.value.alwaysOn != Some(true)
      && sku != DynamicSku
    case RuntimeV2 =>
      result.appSettingResponse.Some?
      && RuntimeVersion(result.appSettingResponse.value, constants) == Some(BetaVersion)
    case NewRuntimeVersion =>
      result.appSettingResponse.Some?
      && var version := RuntimeVersion(result.appSettingResponse.value, constants);
         // an absent or empty version leaves "is latest" unknown, which counts as outdated
         !Truthy(version) || (version.value != BetaVersion && needToUpdateRuntime(version.value))
    case SlotsHostId =>
      result.appSettingResponse.Some? && result.slotsResponse.Some?
      && |result.slotsResponse.value| > 0
      && var setting := SlotsStorageSetting(result.appSettingResponse.value, constants);
         (setting.None? || ToLower(setting.value) != ToLower(constants.slotsSecretStorageSettingsValue))
  }

  /** The elements of `s` that are in `keep`, in their order in `s`. */
  function Select(s: seq<NotificationId>, keep: set<NotificationId>): (r: seq<NotificationId>)
    ensures |r| <= |s|
    decreases |s|
  {
    if |s| == 0 then []
    else Select(s[..|s| - 1], keep) + (if s[|s| - 1] in keep then [s[|s| - 1]] else [])
  }

  /** Select keeps exactly the elements of `s` that are in `keep`. */
  lemma {:induction false} SelectMembers(s: seq<NotificationId>, keep: set<NotificationId>)
    ensures forall x :: x in Select(s, keep) <==> x in s && x in keep
    decreases |s|
  {
    if |s| > 0 {
      var init := s[..|s| - 1];
      SelectMembers(init, keep);
      assert s == init + [s[|s| - 1]];
    }
  }

  /** The ids a tick raises. */
  ghost function RaisedSet(result: PollResult, sku: string,
                           needToUpdateRuntime: string -> bool, constants: SettingConstants): (raised: set<NotificationId>)
    ensures forall id :: id in raised <==> Raises(id, result, sku, needToUpdateRuntime, constants)
  {
    set id | id in AllIds && Raises(id, result, sku, needToUpdateRuntime, constants)
  }

  /** The ids a tick raises, in publishing order. */
  ghost function RaisedIds(result: PollResult, sku: string,
                           needToUpdateRuntime: string -> bool, constants: SettingConstants): (ids: seq<NotificationId>)
  {
    Select(AllIds, RaisedSet(result, sku, needToUpdateRuntime, constants))
  }

  function Ids(ns: seq<Notification>): (ids: seq<NotificationId>)
  {
    seq(|ns|, i requires 0 <= i < |ns| => ns[i].id)
  }

  /** The notifications pushed for the given ids, in order. */
  function Render(ids: seq<NotificationId>): (ns: seq<Notification>)
    ensures |ns| == |ids|
    ensures forall i :: 0 <= i < |ids| ==> ns[i] == Template(ids[i])
    decreases |ids|
  {
    if |ids| == 0 then [] else Render(ids[..|ids| - 1]) + [Template(ids[|ids| - 1])]
  }

  /** The notifications a tick publishes. */
  ghost function Expected(result: PollResult, sku: string,
                          needToUpdateRuntime: string -> bool, constants: SettingConstants): (ns: seq<Notification>)
  {
    Render(RaisedIds(result, sku, needToUpdateRuntime, constants))
  }

  /** Rendering distributes over concatenation. */
  lemma RenderAppend(a: seq<NotificationId>, b: seq<NotificationId>)
    ensures Render(a + b) == Render(a) + Render(b)
  {
    var r, ra, rb := Render(a + b), Render(a), Render(b);
    assert forall i :: 0 <= i < |r| ==> r[i] == (ra + rb)[i] by {
      forall i | 0 <= i < |r| ensures r[i] == (ra + rb)[i] {
        if i < |a| { assert (a + b)[i] == a[i]; } else { assert (a + b)[i] == b[i - |a|]; }
      }
    }
  }

  /** What notification `id` contributes to a tick's list: its template when raised, else nothing. */
  function Pushed(id: NotificationId, keep: set<NotificationId>): (ns: seq<Notification>)
  {
    if id in keep then [Template(id)] else []
  }

  /** Lower-casing the storage setting only when it is truthy compares like lower-casing it always:
      the empty string is its own lower case. */
  lemma NormalisedSettingDiffers(setting: Option<string>, expected: string)
    ensures (if Truthy(setting) then Some(ToLower(setting.value)) else setting) != Some(ToLower(expected))
        <==> setting.None? || ToLower(setting.value) != ToLower(expected)
  {
    if setting.Some? && setting.value == "" {
      assert ToLower(setting.value) == "";
    }
  }

  /** The slots rule in the terms of the source: the storage setting, lower-cased when truthy,
      is compared with the lower-cased expected value. */
  lemma SlotsRaisedWhen(result: PollResult, sku: string, needToUpdateRuntime: string -> bool,
                        constants: SettingConstants, normalised: Option<string>)
    requires result.appSettingResponse.Some? && result.slotsResponse.Some?
    requires var setting := SlotsStorageSetting(result.appSettingResponse.value, constants);
      normalised == if Truthy(setting) then Some(ToLower(setting.value)) else setting
    ensures SlotsHostId in RaisedSet(result, sku, needToUpdateRuntime, constants) <==>
      |result.slotsResponse.value| > 0 && normalised != Some(ToLower(constants.slotsSecretStorageSettingsValue))
  {
    NormalisedSettingDiffers(SlotsStorageSetting(result.appSettingResponse.value, constants),
                             constants.slotsSecretStorageSettingsValue);
  }

  /** Select over the four ids in publishing order, one id at a time. */
  lemma SelectAllIds(keep: set<NotificationId>)
    ensures Select(AllIds, keep)
      == (if AlwaysOn in keep then [AlwaysOn] else []) + (if RuntimeV2 in keep then [RuntimeV2] else [])
       + (if NewRuntimeVersion in keep then [NewRuntimeVersion] else [])
       + (if SlotsHostId in keep then [SlotsHostId] else [])
  {
    var s1, s2, s3 := [AlwaysOn], [AlwaysOn, RuntimeV2], [AlwaysOn, RuntimeV2, NewRuntimeVersion];
    assert s1[..0] == [] && s2[..1] == s1 && s3[..2] == s2 && AllIds[..3] == s3;
    assert Select(s1, keep) == if AlwaysOn in keep then [AlwaysOn] else [];
    assert Select(s2, keep) == Select(s1, keep) + if RuntimeV2 in keep then [RuntimeV2] else [];
    assert Select(s3, keep) == Select(s2, keep) + if NewRuntimeVersion in keep then [NewRuntimeVersion] else [];
  }

  /** The templates of the ids Select keeps, one id at a time. */
  lemma RenderAllIds(keep: set<NotificationId>)
    ensures Render(Select(AllIds, keep))
      == Pushed(AlwaysOn, keep) + Pushed(RuntimeV2, keep) + Pushed(NewRuntimeVersion, keep) + Pushed(SlotsHostId, keep)
  {
    var c0 := if AlwaysOn in keep then [AlwaysOn] else [];
    var c1 := if RuntimeV2 in keep then [RuntimeV2] else [];
    var c2 := if NewRuntimeVersion in keep then [NewRuntimeVersion] else [];
    var c3 := if SlotsHostId in keep then [SlotsHostId] else [];
    SelectAllIds(keep);
    RenderAppend(c0 + c1 + c2, c3);
    RenderAppend(c0 + c1, c2);
    RenderAppend(c0, c1);
    RenderContribution(AlwaysOn, keep);
    RenderContribution(RuntimeV2, keep);
    RenderContribution(NewRuntimeVersion, keep);
    RenderContribution(SlotsHostId, keep);
  }

  lemma RenderContribution(id: NotificationId, keep: set<NotificationId>)
    ensures Render(if id in keep then [id] else []) == Pushed(id, keep)
  {
    if id in keep {
      assert [id][..0] == [];
    }
  }

  // ---------------------------------------------------------------------------------------
  // The handler as the component runs it.
  // ---------------------------------------------------------------------------------------

  /** Builds the notification list of one tick by successive pushes, as `_handlePollingTaskResult`
      does, with the tri-state `isLatestFunctionRuntime` flag (`None` for `null`). */
  method DeriveNotifications(result: PollResult, sku: string,
                             needToUpdateRuntime: string -> bool, constants: SettingConstants)
    returns (notifications: seq<Notification>)
    ensures notifications == Expected(result, sku, needToUpdateRuntime, constants)
  {
    // the set of ids the reference rules raise
    ghost var keep := RaisedSet(result, sku, needToUpdateRuntime, constants);
    notifications := [];

    if result.configResponse.Some? {
      var config := result.configResponse.value;
      var alwaysOnSetting := config.alwaysOn == Some(true) || sku == DynamicSku;
      if !alwaysOnSetting {
        notifications := notifications + [Template(AlwaysOn)];
      }
    }
    assert notifications == Pushed(AlwaysOn, keep);

    if result.appSettingResponse.Some? {
      var appSettings := result.appSettingResponse.value;
      var extensionVersion := Lookup(appSettings, constants.runtimeVersionAppSettingName);
      var isLatestFunctionRuntime: Option<bool> := None;
      if Truthy(extensionVersion) {
        if extensionVersion.value == BetaVersion {
          isLatestFunctionRuntime := Some(true);
          notifications := notifications + [Template(RuntimeV2)];
        } else {
          isLatestFunctionRuntime := Some(!needToUpdateRuntime(extensionVersion.value));
        }
      }
      assert notifications == Pushed(AlwaysOn, keep) + Pushed(RuntimeV2, keep);

      if isLatestFunctionRuntime != Some(true) {
        notifications := notifications + [Template(NewRuntimeVersion)];
      }
      assert notifications == Pushed(AlwaysOn, keep) + Pushed(RuntimeV2, keep) + Pushed(NewRuntimeVersion, keep);
      ghost var before := notifications;

      if result.slotsResponse.Some? {
        var slotsStorageSetting := Lookup(appSettings, constants.slotsSecretStorageSettingsName);
        if Truthy(slotsStorageSetting) {
          slotsStorageSetting := Some(ToLower(slotsStorageSetting.value));
        }
        SlotsRaisedWhen(result, sku, needToUpdateRuntime, constants, slotsStorageSetting);
        var numSlots := |result.slotsResponse.value|;
        if numSlots > 0 && slotsStorageSetting != Some(ToLower(constants.slotsSecretStorageSettingsValue)) {
          notifications := notifications + [Template(SlotsHostId)];
        }
      }
      assert notifications == before + Pushed(SlotsHostId, keep);
    } else {
      assert Pushed(RuntimeV2, keep) == Pushed(NewRuntimeVersion, keep) == Pushed(SlotsHostId, keep) == [];
    }
    RenderAllIds(keep);
  }
}

module NotificationProperties {
  import opened Wrappers
  import opened JsStrings
  import opened Notifications

  /** Ids strictly increase in publishing order. */
  ghost predicate InPublishingOrder(ids: seq<NotificationId>)
  {
    forall i, j :: 0 <= i < j < |ids| ==> Rank(ids[i]) < Rank(ids[j])
  }

  ghost predicate NoDuplicates(ids: seq<NotificationId>)
  {
    forall i, j :: 0 <= i < j < |ids| ==> ids[i] != ids[j]
  }

  /** Selecting from an ordered list keeps it ordered. */
  lemma {:induction false} SelectKeepsOrder(s: seq<NotificationId>, keep: set<NotificationId>)
    requires InPublishingOrder(s)
    ensures InPublishingOrder(Select(s, keep))
    decreases |s|
  {
    if |s| > 0 {
      var init, last := s[..|s| - 1], s[|s| - 1];
      assert InPublishingOrder(init) by {
        forall i, j | 0 <= i < j < |init| ensures Rank(init[i]) < Rank(init[j]) {
          assert init[i] == s[i] && init[j] == s[j];
        }
      }
      SelectKeepsOrder(init, keep);
      SelectMembers(init, keep);
      var head := Select(init, keep);
      if last in keep {
        forall k | 0 <= k < |head| ensures Rank(head[k]) < Rank(last) {
          assert head[k] in init;
          var m :| 0 <= m < |init| && init[m] == head[k];
          assert s[m] == head[k];
        }
        var r := head + [last];
        forall i, j | 0 <= i < j < |r| ensures Rank(r[i]) < Rank(r[j]) {
          assert r[i] == head[i];
          if j < |head| { assert r[j] == head[j]; }
        }
      } else {
        assert Select(s, keep) == head;
      }
    }
  }

  /** The published notifications are the templates of the raised ids. */
  lemma ExpectedIsTemplatesOfRaised(result: PollResult, sku: string,
                                    needToUpdateRuntime: string -> bool, constants: SettingConstants)
    ensures Ids(Expected(result, sku, needToUpdateRuntime, constants)) == RaisedIds(result, sku, needToUpdateRuntime, constants)
    ensures forall n :: n in Expected(result, sku, needToUpdateRuntime, constants) ==> n == Template(n.id)
  {
    var e := Expected(result, sku, needToUpdateRuntime, constants);
    var ids := RaisedIds(result, sku, needToUpdateRuntime, constants);
    assert forall i :: 0 <= i < |e| ==> e[i] == Template(ids[i]);
  }

  /** A notification is published exactly when its rule raises it. */
  lemma PublishedIffRaised(id: NotificationId, result: PollResult, sku: string,
                           needToUpdateRuntime: string -> bool, constants: SettingConstants)
    ensures id in Ids(Expected(result, sku, needToUpdateRuntime, constants))
        <==> Raises(id, result, sku, needToUpdateRuntime, constants)
  {
    ExpectedIsTemplatesOfRaised(result, sku, needToUpdateRuntime, constants);
    SelectMembers(AllIds, RaisedSet(result, sku, needToUpdateRuntime, constants));
    assert id in AllIds by { assert AllIds[Rank(id)] == id; }
  }

  /** Published ids follow the order alwaysOn, runtimeV2, newRuntimeVersion, slotsHostId; none
      repeats, and the two runtime notifications never appear together. */
  lemma PublishedOrderedAndUnique(result: PollResult, sku: string,
                                  needToUpdateRuntime: string -> bool, constants: SettingConstants)
    ensures InPublishingOrder(Ids(Expected(result, sku, needToUpdateRuntime, constants)))
    ensures NoDuplicates(Ids(Expected(result, sku, needToUpdateRuntime, constants)))
    ensures !(RuntimeV2 in Ids(Expected(result, sku, needToUpdateRuntime, constants))
              && NewRuntimeVersion in Ids(Expected(result, sku, needToUpdateRuntime, constants)))
  {
    ExpectedIsTemplatesOfRaised(result, sku, needToUpdateRuntime, constants);
    assert InPublishingOrder(AllIds);
    SelectKeepsOrder(AllIds, RaisedSet(result, sku, needToUpdateRuntime, constants));
    PublishedIffRaised(RuntimeV2, result, sku, needToUpdateRuntime, constants);
    PublishedIffRaised(NewRuntimeVersion, result, sku, needToUpdateRuntime, constants);
  }

  /** Always-on warning: with the site config present it is published exactly when `alwaysOn` is
      not `true` and the sku is not Dynamic; without the config it never is. */
  lemma AlwaysOnWarning(result: PollResult, sku: string,
                        needToUpdateRuntime: string -> bool, constants: SettingConstants)
    ensures result.configResponse.Some? ==>
      (AlwaysOn in Ids(Expected(result, sku, needToUpdateRuntime, constants))
       <==> result.configResponse.value.alwaysOn != Some(true) && sku != "Dynamic")
    ensures result.configResponse.None? ==> AlwaysOn !in Ids(Expected(result, sku, needToUpdateRuntime, constants))
  {
    PublishedIffRaised(AlwaysOn, result, sku, needToUpdateRuntime, constants);
  }

  /** A "beta" runtime version raises the v2-preview notification and never the new-version one,
      whatever the version helper says. */
  lemma BetaRuntime(result: PollResult, sku: string,
                    needToUpdateRuntime: string -> bool, constants: SettingConstants)
    requires result.appSettingResponse.Some?
    requires Lookup(result.appSettingResponse.value, constants.runtimeVersionAppSettingName) == Some("beta")
    ensures RuntimeV2 in Ids(Expected(result, sku, needToUpdateRuntime, constants))
    ensures NewRuntimeVersion !in Ids(Expected(result, sku, needToUpdateRuntime, constants))
  {
    PublishedIffRaised(RuntimeV2, result, sku, needToUpdateRuntime, constants);
    PublishedIffRaised(NewRuntimeVersion, result, sku, needToUpdateRuntime, constants);
  }

  /** Any other runtime version: no v2-preview notification; an absent or empty version always
      raises the new-version notification, a non-empty one exactly when the helper asks for an update. */
  lemma OtherRuntime(result: PollResult, sku: string,
                     needToUpdateRuntime: string -> bool, constants: SettingConstants)
    requires result.appSettingResponse.Some?
    requires Lookup(result.appSettingResponse.value, constants.runtimeVersionAppSettingName) != Some("beta")
    ensures RuntimeV2 !in Ids(Expected(result, sku, needToUpdateRuntime, constants))
    ensures var version := Lookup(result.appSettingResponse.value, constants.runtimeVersionAppSettingName);
      (version.None? || version == Some("")) ==> NewRuntimeVersion in Ids(Expected(result, sku, needToUpdateRuntime, constants))
    ensures var version := Lookup(result.appSettingResponse.value, constants.runtimeVersionAppSettingName);
      (version.Some? && version.value != "") ==>
        (NewRuntimeVersion in Ids(Expected(result, sku, needToUpdateRuntime, constants)) <==> needToUpdateRuntime(version.value))
  {
    PublishedIffRaised(RuntimeV2, result, sku, needToUpdateRuntime, constants);
    PublishedIffRaised(NewRuntimeVersion, result, sku, needToUpdateRuntime, constants);
  }

  /** Slots warning: published exactly when app settings and slots are both present, there is at
      least one slot, and the storage setting is absent or differs, ignoring case, from the
      expected value. */
  lemma SlotsWarning(result: PollResult, sku: string,
                     needToUpdateRuntime: string -> bool, constants: SettingConstants)
    ensures SlotsHostId in Ids(Expected(result, sku, needToUpdateRuntime, constants)) <==>
      result.appSettingResponse.Some? && result.slotsResponse.Some? && |result.slotsResponse.value| > 0
      && var setting := Lookup(result.appSettingResponse.value, constants.slotsSecretStorageSettingsName);
         (setting.None? || !EqualIgnoringCase(setting.value, constants.slotsSecretStorageSettingsValue))
  {
    PublishedIffRaised(SlotsHostId, result, sku, needToUpdateRuntime, constants);
    var setting := Lookup(result.appSettingResponse.GetOr(map[]), constants.slotsSecretStorageSettingsName);
    if setting.Some? {
      ToLowerEqualIff(setting.value, constants.slotsSecretStorageSettingsValue);
    }
  }

  /** Without app settings none of the runtime or slots notifications is published, even when
      slots are present. */
  lemma MissingAppSettings(result: PollResult, sku: string,
                           needToUpdateRuntime: string -> bool, constants: SettingConstants)
    requires result.appSettingResponse.None?
    ensures RuntimeV2 !in Ids(Expected(result, sku, needToUpdateRuntime, constants))
    ensures NewRuntimeVersion !in Ids(Expected(result, sku, needToUpdateRuntime, constants))
    ensures SlotsHostId !in Ids(Expected(result, sku, needToUpdateRuntime, constants))
  {
    PublishedIffRaised(RuntimeV2, result, sku, needToUpdateRuntime, constants);
    PublishedIffRaised(NewRuntimeVersion, result, sku, needToUpdateRuntime, constants);
    PublishedIffRaised(SlotsHostId, result, sku, needToUpdateRuntime, constants);
  }

  /** A failed tick publishes the empty list, clearing every warning. */
  lemma FailedTickClearsNotifications(sku: string, needToUpdateRuntime: string -> bool, constants: SettingConstants)
    ensures Expected(FailedTick, sku, needToUpdateRuntime, constants) == []
  {
    var keep := RaisedSet(FailedTick, sku, needToUpdateRuntime, constants);
    assert keep == {} by {
      forall id ensures id !in keep {
        assert !Raises(id, FailedTick, sku, needToUpdateRuntime, constants);
      }
    }
    SelectAllIds(keep);
  }

  /** A tick of an outdated site with slots: always-on off, runtime version 2.0.0, storage setting
      `disabled`, one slot. */
  function ExampleTick(constants: SettingConstants): (result: PollResult)
  {
    PollResult(
      Some(SiteConfig(Some(false))),
      Some(map[constants.runtimeVersionAppSettingName := "2.0.0",
               constants.slotsSecretStorageSettingsName := "disabled"]),
      Some([SlotSite("s1")]))
  }

  /** In the example tick, the rules raise alwaysOn, newRuntimeVersion and slotsHostId only. */
  lemma ExampleTickRaises(sku: string, needToUpdateRuntime: string -> bool, constants: SettingConstants)
    requires sku != "Dynamic"
    requires needToUpdateRuntime("2.0.0")
    requires constants.runtimeVersionAppSettingName != constants.slotsSecretStorageSettingsName
    requires ToLower("disabled") != ToLower(constants.slotsSecretStorageSettingsValue)
    ensures var keep := RaisedSet(ExampleTick(constants), sku, needToUpdateRuntime, constants);
      AlwaysOn in keep && RuntimeV2 !in keep && NewRuntimeVersion in keep && SlotsHostId in keep
  {
    var settings := ExampleTick(constants).appSettingResponse.value;
    assert RuntimeVersion(settings, constants) == Some("2.0.0");
    assert SlotsStorageSetting(settings, constants) == Some("disabled");
    assert "2.0.0" != BetaVersion by { assert "2.0.0"[0] != BetaVersion[0]; }
  }

  /** An outdated site with slots: always-on off, an outdated runtime, one slot and a
      non-matching storage setting publish alwaysOn, newRuntimeVersion and slotsHostId, in that order. */
  lemma OutdatedSiteWithSlots(sku: string, needToUpdateRuntime: string -> bool, constants: SettingConstants)
    requires sku != "Dynamic"
    requires needToUpdateRuntime("2.0.0")
    requires constants.runtimeVersionAppSettingName != constants.slotsSecretStorageSettingsName
    requires ToLower("disabled") != ToLower(constants.slotsSecretStorageSettingsValue)
    ensures Ids(Expected(ExampleTick(constants), sku, needToUpdateRuntime, constants))
         == [AlwaysOn, NewRuntimeVersion, SlotsHostId]
  {
    ExampleTickRaises(sku, needToUpdateRuntime, constants);
    SelectExample(RaisedSet(ExampleTick(constants), sku, needToUpdateRuntime, constants));
    ExpectedIsTemplatesOfRaised(ExampleTick(constants), sku, needToUpdateRuntime, constants);
  }

  /** The selection of the example: alwaysOn, newRuntimeVersion and slotsHostId kept. */
  lemma SelectExample(keep: set<NotificationId>)
    requires AlwaysOn in keep && RuntimeV2 !in keep && NewRuntimeVersion in keep && SlotsHostId in keep
    ensures Select(AllIds, keep) == [AlwaysOn, NewRuntimeVersion, SlotsHostId]
  {
    SelectAllIds(keep);
    assert Select(AllIds, keep) == [AlwaysOn] + [] + [NewRuntimeVersion] + [SlotsHostId];
  }
}
