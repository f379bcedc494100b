/**
 * The parts of the Android platform that the bridge consults: the SDK level,
 * the notification-channel registry of the NotificationManager, the constants
 * it compares against, and the Intent that asks the OS to open a settings screen.
 */
module Android {
  import opened Wrappers

  /** Build.VERSION_CODES.O, Android 8.0: the first API level with notification channels. */
  const VERSION_CODES_O: int := 26

  /** NotificationManager.IMPORTANCE_NONE: the user has silenced the channel entirely. */
  const IMPORTANCE_NONE: int := 0

  /** Settings.ACTION_CHANNEL_NOTIFICATION_SETTINGS and the two extras it reads. */
  const ACTION_CHANNEL_NOTIFICATION_SETTINGS: string := "android.settings.CHANNEL_NOTIFICATION_SETTINGS"
  const EXTRA_APP_PACKAGE: string := "android.provider.extra.APP_PACKAGE"
  const EXTRA_CHANNEL_ID: string := "android.provider.extra.CHANNEL_ID"

  /** A NotificationChannel as `getNotificationChannel` hands it back. */
  datatype NotificationChannel = NotificationChannel(id: string, importance: int)

  /**
   * What the OS reports at the moment of a call: Build.VERSION.SDK_INT and,
   * for every channel the app has created, its current importance.
   */
  datatype Platform = Platform(sdkInt: int, channels: map<string, int>)

  /** NotificationManager.getNotificationChannel: null (None) for an unknown id. */
  function GetNotificationChannel(p: Platform, channelId: string): Option<NotificationChannel>
  {
    if channelId in p.channels then Some(NotificationChannel(channelId, p.channels[channelId])) else None
  }

  /** Kotlin's safe call `channel?.importance`: null when the channel is null. */
  function SafeImportance(channel: Option<NotificationChannel>): Option<int>
  {
    match channel
    case None => None
    case Some(c) => Some(c.importance)
  }

  /**
   * Kotlin's `a != b` between an `Int?` and an `Int`: null is unequal to
   * every integer, so a missing value compares as "different".
   */
  function NullableNotEquals(a: Option<int>, b: int): bool
  {
    match a
    case None => true
    case Some(v) => v != b
  }

  /** What the OS receives from `startActivity`: the intent's action and its extras. */
  datatype NavigationRequest = NavigationRequest(action: string, extras: map<string, string>)

  /** An android.content.Intent under construction; `putExtra` updates it in place. */
  class Intent {
    const action: string
    var extras: map<string, string>

    constructor (action: string)
      ensures this.action == action && extras == map[]
    {
      this.action := action;
      extras := map[];
    }

    method PutExtra(name: string, value: string)
      modifies this
      ensures extras == old(extras)[name := value]
    {
      extras := extras[name := value];
    }

    /** The request as the OS sees it once the intent is started. */
    function Request(): NavigationRequest
      reads this
    {
      NavigationRequest(action, extras)
    }
  }
}
