/**
 * The native side of the "com.nyxkn.meditation/channelHelper" method channel:
 * the handler installed by MainActivity.configureFlutterEngine and the two
 * helpers it calls.
 */
module Meditation {
  import opened Wrappers
  import opened Android
  import opened Flutter

  /** The channel the handler listens on (the Flutter plumbing itself is not modelled). */
  const CHANNEL_NAME: string := "com.nyxkn.meditation/channelHelper"

  const OPEN_CHANNEL_SETTINGS: string := "openChannelSettings"
  const IS_CHANNEL_ENABLED: string := "isChannelEnabled"
  const CHANNEL_ID: string := "channelId"

  const UNAVAILABLE: string := "UNAVAILABLE"
  const CHANNEL_ID_NOT_AVAILABLE: string := "Channel ID not available."

  /** The method names the handler has a branch for. */
  predicate IsSupported(name: string)
  {
    name == OPEN_CHANNEL_SETTINGS || name == IS_CHANNEL_ENABLED
  }

  /**
   * isNotificationChannelEnabled. Before Android O there are no channels and
   * the answer is always true. From O on the channel is looked up and
   * `channel?.importance != IMPORTANCE_NONE` decides; a missing channel gives
   * null there, which Kotlin considers unequal to IMPORTANCE_NONE, so a channel
   * the app never created counts as enabled.
   */
  function IsNotificationChannelEnabled(p: Platform, channelId: string): (enabled: bool)
    ensures p.sdkInt < VERSION_CODES_O ==> enabled
    ensures p.sdkInt >= VERSION_CODES_O ==>
      (!enabled <==> channelId in p.channels && p.channels[channelId] == IMPORTANCE_NONE)
  {
    if p.sdkInt >= VERSION_CODES_O then
      NullableNotEquals(SafeImportance(GetNotificationChannel(p, channelId)), IMPORTANCE_NONE)
    else
      true
  }

  /**
   * The request openChannelSettings hands to `startActivity`: the channel
   * settings action, carrying the app's own package and the channel id.
   */
  function ChannelSettingsRequest(packageName: string, channelId: string): (r: NavigationRequest)
    ensures r.action == ACTION_CHANNEL_NOTIFICATION_SETTINGS
    ensures r.extras.Keys == {EXTRA_APP_PACKAGE, EXTRA_CHANNEL_ID}
    ensures r.extras[EXTRA_APP_PACKAGE] == packageName && r.extras[EXTRA_CHANNEL_ID] == channelId
  {
    NavigationRequest(ACTION_CHANNEL_NOTIFICATION_SETTINGS,
      map[][EXTRA_APP_PACKAGE := packageName][EXTRA_CHANNEL_ID := channelId])
  }

  /** A navigation that opens the settings of some channel of `packageName`. */
  predicate IsChannelSettingsFor(packageName: string, r: NavigationRequest)
  {
    r.action == ACTION_CHANNEL_NOTIFICATION_SETTINGS &&
    EXTRA_APP_PACKAGE in r.extras && r.extras[EXTRA_APP_PACKAGE] == packageName &&
    EXTRA_CHANNEL_ID in r.extras
  }

  /**
   * The answer the handler gives to `call` on platform `p`: the
   * `when (call.method)` dispatch, each supported branch guarded by the
   * null check on the "channelId" argument.
   */
  function Respond(p: Platform, call: MethodCall): (reply: Reply)
    ensures reply.NotImplemented? <==> !IsSupported(call.name)
    ensures reply.Error? <==> IsSupported(call.name) && Argument(call, CHANNEL_ID).None?
    ensures reply.Error? ==> reply == Error(UNAVAILABLE, CHANNEL_ID_NOT_AVAILABLE)
    ensures reply.Success? && call.name == OPEN_CHANNEL_SETTINGS ==> reply.value == None
    ensures call.name == IS_CHANNEL_ENABLED && Argument(call, CHANNEL_ID).Some? ==>
      reply == Success(Some(IsNotificationChannelEnabled(p, Argument(call, CHANNEL_ID).value)))
  {
    if call.name == OPEN_CHANNEL_SETTINGS then
      match Argument(call, CHANNEL_ID)
      case Some(_) => Success(None)
      case None => Error(UNAVAILABLE, CHANNEL_ID_NOT_AVAILABLE)
    else if call.name == IS_CHANNEL_ENABLED then
      match Argument(call, CHANNEL_ID)
      case Some(channelId) => Success(Some(IsNotificationChannelEnabled(p, channelId)))
      case None => Error(UNAVAILABLE, CHANNEL_ID_NOT_AVAILABLE)
    else
      NotImplemented
  }

  /**
   * The activities the handler starts while answering `call`: one
   * channel-settings navigation for an openChannelSettings call that carries a
   * channel id, none otherwise. The platform plays no part: neither the SDK
   * level nor the registry is consulted.
   */
  function Dispatches(packageName: string, call: MethodCall): (d: seq<NavigationRequest>)
    ensures |d| <= 1
    ensures d != [] <==> call.name == OPEN_CHANNEL_SETTINGS && Argument(call, CHANNEL_ID).Some?
    ensures d != [] ==> d[0] == ChannelSettingsRequest(packageName, Argument(call, CHANNEL_ID).value)
  {
    if call.name == OPEN_CHANNEL_SETTINGS then
      match Argument(call, CHANNEL_ID)
      case Some(channelId) => [ChannelSettingsRequest(packageName, channelId)]
      case None => []
    else
      []
  }

  /**
   * Only a null channel id is rejected: `?.let` tests for null and nothing
   * else, so the empty string reaches both helpers like any other id.
   */
  lemma EmptyChannelIdIsPassedThrough(packageName: string, p: Platform, call: MethodCall)
    requires IsSupported(call.name) && CHANNEL_ID in call.arguments && call.arguments[CHANNEL_ID] == Some("")
    ensures Respond(p, call).Success?
    ensures call.name == IS_CHANNEL_ENABLED ==> Respond(p, call).value == Some(IsNotificationChannelEnabled(p, ""))
    ensures call.name == OPEN_CHANNEL_SETTINGS ==> Dispatches(packageName, call) == [ChannelSettingsRequest(packageName, "")]
  {
  }

  /**
   * The answer for one channel depends on that channel alone: setting the
   * importance of any other channel leaves it unchanged.
   */
  lemma EnabledIgnoresOtherChannels(p: Platform, channelId: string, other: string, importance: int)
    requires other != channelId
    ensures IsNotificationChannelEnabled(p.(channels := p.channels[other := importance]), channelId)
         == IsNotificationChannelEnabled(p, channelId)
  {
  }

  /** MainActivity: its package name, and the log of the activities it has started. */
  class MainActivity {
    const packageName: string
    var startedActivities: seq<NavigationRequest>

    /** Every activity this bridge has started is a channel-settings screen of this app. */
    ghost predicate Valid()
      reads this
    {
      forall i :: 0 <= i < |startedActivities| ==> IsChannelSettingsFor(packageName, startedActivities[i])
    }

    constructor (packageName: string)
      ensures this.packageName == packageName && startedActivities == [] && Valid()
    {
      this.packageName := packageName;
      startedActivities := [];
    }

    /** Context.startActivity, fire-and-forget: the request is handed to the OS and logged. */
    method StartActivity(intent: Intent)
      modifies this
      ensures startedActivities == old(startedActivities) + [intent.Request()]
    {
      startedActivities := startedActivities + [intent.Request()];
    }

    /** openChannelSettings: build the intent in place, then start it. */
    method OpenChannelSettings(channelId: string)
      modifies this
      ensures startedActivities == old(startedActivities) + [ChannelSettingsRequest(packageName, channelId)]
    {
      var intent := new Intent(ACTION_CHANNEL_NOTIFICATION_SETTINGS);
      intent.PutExtra(EXTRA_APP_PACKAGE, packageName);
      intent.PutExtra(EXTRA_CHANNEL_ID, channelId);
      StartActivity(intent);
    }

    /**
     * The method-call handler. Exactly one answer goes to `result`, and the
     * only activity started is the one Dispatches names.
     */
    method OnMethodCall(p: Platform, call: MethodCall, result: MethodResult)
      requires Valid()
      modifies this, result
      ensures Valid()
      ensures result.replies == old(result.replies) + [Respond(p, call)]
      ensures startedActivities == old(startedActivities) + Dispatches(packageName, call)
    {
      if call.name == OPEN_CHANNEL_SETTINGS {
        var channelId := Argument(call, CHANNEL_ID);
        // `channelId?.let { ... } ?: result.error(...)`: the block runs only for a
        // non-null id; it ends in `result.success(null)`, whose value (Unit) is not
        // null, so the elvis branch runs exactly when the id is null.
        var letValue: Option<()> := None;
        if channelId.Some? {
          OpenChannelSettings(channelId.value);
          result.Success(None);
          letValue := Some(());
        }
        if letValue.None? {
          result.Error(UNAVAILABLE, CHANNEL_ID_NOT_AVAILABLE);
        }
      } else if call.name == IS_CHANNEL_ENABLED {
        var channelId := Argument(call, CHANNEL_ID);
        var letValue: Option<()> := None;
        if channelId.Some? {
          result.Success(Some(IsNotificationChannelEnabled(p, channelId.value)));
          letValue := Some(());
        }
        if letValue.None? {
          result.Error(UNAVAILABLE, CHANNEL_ID_NOT_AVAILABLE);
        }
      } else {
        result.NotImplemented();
      }
    }
  }
}
