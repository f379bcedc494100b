# Notification-channel bridge of the Meditation app (Dafny model)

The Android side of the Meditation app answers two requests from its Flutter UI
over the method channel `com.nyxkn.meditation/channelHelper`:

- `isChannelEnabled(channelId)` reports whether the OS currently lets the app post
  on a notification channel;
- `openChannelSettings(channelId)` opens the OS settings screen of that channel.

Any other method name is answered "not implemented". A missing `channelId` is
answered with the error `UNAVAILABLE` / "Channel ID not available.".

This project models that bridge over an abstract snapshot of the OS.

- `Android` (android.dfy) holds the platform. `Platform` is the SDK level and a map
  from channel id to importance. It also holds the constants the bridge compares
  against (`VERSION_CODES_O` = 26, `IMPORTANCE_NONE` = 0, the settings action and
  its two extras), Kotlin's safe call `?.importance` and its nullable `!=`, and an
  `Intent` class whose `PutExtra` updates the intent in place.
- `Flutter` (flutter.dfy) holds the protocol. `MethodCall` is a method name plus
  named, nullable string arguments. `Reply` is `Success(Option<bool>)`,
  `Error(code, message)` or `NotImplemented`. The `MethodResult` class records
  every answer given through it.
- `Meditation` (main_activity.dfy) holds the bridge, with three pure functions:
  - `IsNotificationChannelEnabled` is the version-conditional rule;
  - `Respond` gives the handler's answer;
  - `Dispatches` gives the activities the handler starts.

  It also holds the `MainActivity` class. Its `OnMethodCall`, `OpenChannelSettings`
  and `StartActivity` methods change the log of started activities and the result
  object, and they are proved against those functions.
- `Sessions` (sessions.dfy) runs the handler over a sequence of calls, as the engine
  delivers them one at a time. Its `Run` method calls `OnMethodCall` on each step
  and is proved to deliver `Replies(steps)` to the result object and to add
  `Navigations(packageName, steps)` to the activity's log. The lemmas about those two
  functions are therefore statements about the handler's logs: one answer per
  call, one navigation per `openChannelSettings` call that carries an id, and
  repeatable queries.

The Kotlin null semantics are explicit. On API 26 and above,
`channel?.importance != IMPORTANCE_NONE` is `true` for a channel the registry does
not hold, because `null != 0`. `NullableNotEquals(None, b)` is `true`, so a missing
channel counts as enabled.

`?.let` tests for null only, so an empty id is not rejected and reaches both
helpers; see `Meditation.EmptyChannelIdIsPassedThrough`.

## Model

| member | source | states |
|---|---|---|
| Meditation.IsNotificationChannelEnabled | android/app/src/main/kotlin/com/nyxkn/meditation/MainActivity.kt:45-56 | below API 26 the result is true for every id, registered or not; from API 26 on it is false exactly when the channel is registered with importance IMPORTANCE_NONE, so an unregistered channel reads as enabled |
| Meditation.EnabledIgnoresOtherChannels | android/app/src/main/kotlin/com/nyxkn/meditation/MainActivity.kt:48-51 | the answer for one channel depends only on the SDK level and that channel's own entry; changing any other channel's importance leaves it unchanged |
| Meditation.ChannelSettingsRequest | android/app/src/main/kotlin/com/nyxkn/meditation/MainActivity.kt:59-62 | the navigation carries the channel-settings action and exactly two extras: the app package and the channel id |
| Meditation.Respond | android/app/src/main/kotlin/com/nyxkn/meditation/MainActivity.kt:22-41 | NotImplemented exactly for a name other than the two supported ones; the UNAVAILABLE error with the fixed message exactly for a supported name whose channelId is null or absent; openChannelSettings otherwise answers Success(None); isChannelEnabled with an id always answers Success(Some(b)) with b the channel's enablement |
| Meditation.Dispatches | android/app/src/main/kotlin/com/nyxkn/meditation/MainActivity.kt:23-28 | at most one activity per call; one exactly for openChannelSettings with a non-null id, and it is the settings request for the app's package and that id, whatever the SDK level or registry; nothing for errors, queries or unknown names |
| Meditation.EmptyChannelIdIsPassedThrough | android/app/src/main/kotlin/com/nyxkn/meditation/MainActivity.kt:24-26 | an empty-string channelId is not rejected: both methods succeed with it and openChannelSettings navigates to channel "" |
| Meditation.MainActivity.StartActivity | android/app/src/main/kotlin/com/nyxkn/meditation/MainActivity.kt:63 | appends the started intent's request to the log and changes nothing else |
| Meditation.MainActivity.OpenChannelSettings | android/app/src/main/kotlin/com/nyxkn/meditation/MainActivity.kt:58-64 | building the intent in place and starting it appends exactly ChannelSettingsRequest(packageName, channelId) to the log |
| Meditation.MainActivity.OnMethodCall | android/app/src/main/kotlin/com/nyxkn/meditation/MainActivity.kt:20-42 | exactly one answer, Respond(p, call), is delivered to result; the log grows by exactly Dispatches(packageName, call); the invariant that every started activity is a channel-settings screen of this app is kept |
| Flutter.Argument | android/app/src/main/kotlin/com/nyxkn/meditation/MainActivity.kt:24 | call.argument yields a value exactly when the key is present with a non-null value |
| Sessions.Run | android/app/src/main/kotlin/com/nyxkn/meditation/MainActivity.kt:20-42 | handling the calls of a run one after another, the result object receives exactly Replies(steps) and the activity's log grows by exactly Navigations(packageName, steps), keeping the activity's invariant |
| Sessions.RepliesPairWithCalls | android/app/src/main/kotlin/com/nyxkn/meditation/MainActivity.kt:20-42 | the answers Run delivers to the result object are one per call, and the i-th is Respond of the i-th call on its platform |
| Sessions.NavigationsFollowOpenedChannels | android/app/src/main/kotlin/com/nyxkn/meditation/MainActivity.kt:23-28 | the activities Run adds to the activity's log are exactly one channel-settings request per openChannelSettings call with an id, in call order, for the app's package and that id |
| Sessions.NoNavigationWithoutOpen | android/app/src/main/kotlin/com/nyxkn/meditation/MainActivity.kt:31-40 | Run over a run with no openChannelSettings call adds nothing to the activity's log |
| Sessions.RepeatedQueryAgrees | android/app/src/main/kotlin/com/nyxkn/meditation/MainActivity.kt:31-35 | Run over two isChannelEnabled calls in a row on an unchanged platform delivers the same answer twice and leaves the activity's log unchanged |

## Left out

- Flutter plumbing: `FlutterActivity`, `FlutterEngine` and building the `MethodChannel` over the binary messenger are framework calls the model does not see. The channel name is only the constant `CHANNEL_NAME`.
- `getSystemService` and the real `NotificationManager`: the registry is the `channels` map of the `Platform` value passed to each call.
- What `startActivity` does after the hand-off, and the settings screen itself: the model only logs the request.
- How the Dart side encodes arguments, and the asynchronous delivery of `result` callbacks. Arguments are nullable strings. A `channelId` of another type, which makes Kotlin's unchecked cast fail, is not modelled.
- The `details` argument of `result.error` is always null in the source, so `Reply.Error` has no field for it.
- Exceptions from the OS calls are not modelled; the source does not handle them either.
- Meditation.Dispatches: the model answers openChannelSettings with Success(None) and a logged navigation at every SDK level. Below API 26 no activity handles the channel-settings action, so `startActivity` (MainActivity.kt:63) would throw before `result.success(null)` and the engine would report an error instead; that platform behaviour lies outside the source text and is not modelled.
