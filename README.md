# ForecastIQ iOS application delegate — a Dafny model

This project models the decision logic inside the iOS application delegate of
the ForecastIQ Flutter app (`ios/Runner/AppDelegate.swift`): how the APNs
device token is turned into the hex string kept in `UserDefaults`, which
notification categories and actions are registered, how a notification
response is routed to Flutter, which `UIBackgroundFetchResult` a background
fetch reports, which URLs the app claims as deep links, and how a revoked
Sign in with Apple credential is cleaned up.

The platform is reduced to values:

- whether `window?.rootViewController` is a `FlutterViewController` is a Boolean `controllerPresent`;
- a Flutter method-channel invocation is an `Event`, one constructor per channel method (the channel names are kept as comments beside them);
- `UserDefaults.standard` is a `map<string, string>`;
- the Flutter reply to `performBackgroundFetch` is an `Option<ReplyValue>`;
- `URL.scheme` is an `Option<string>` and `url.absoluteString` a string;
- the identity provider's asynchronous answer is a `CredentialState` parameter;
- what `super.application(_:open:options:)` returns is a Boolean `superResult`.

Layout, one module per piece of logic:

- `token_hex.dfy` (`TokenHex`): `%02.2hhx` encoding and a decoder.
- `categories.dfy` (`Categories`): the category registry.
- `channel.dfy` (`Channel`): payloads and channel events.
- `shared_state.dfy` (`SharedState`): the store keys, the `Step` log of store writes, removals and channel invocations, and `Replay`/`Emitted`, which give the store and the events a log produces.
- `action_router.dfy`, `background_fetch.dfy`, `deep_links.dfy`, `credential_monitor.dfy`: each handler's decision as pure functions, including the steps it takes, in order.
- `app_delegate.dfy` (`AppDelegateModel.AppDelegate`): the delegate as a class. Its `store` and `events` fields are updated in place by its methods. A ghost `trace` records every step since launch. `Valid()` says that `store` is the launch store replayed through `trace` and that `events` are the trace's emissions. Every callback method states its new trace as the old trace plus the pure steps function of its module. This is how the order "remove `appleUserID`, then send `credentialRevoked`" is stated.

Behaviour of the code worth stating plainly:

- Background fetch: any non-nil Flutter reply, including `false`, a `FlutterError` and `FlutterMethodNotImplemented`, gives `newData`. Only nil gives `noData`. There is no deadline (`BackgroundFetch.ReplyContentIgnored`).
- Notification routing: a response either sends `handleNotificationTap` or sends nothing. It sends nothing for `DISMISS_ACTION`, for a payload without a string `type`, and without a Flutter controller (`ActionRouter.DidReceiveEmission`).
- Deep links: a `forcast` URL is forwarded only when a Flutter controller is present, but the call returns `true` either way (`DeepLinks.HandledWithoutController`).
- Revocation: `credentialRevoked` is sent only when a Flutter controller is present; the stored id is removed regardless (`CredentialMonitor.RevokedClearsId`).

## Model

| member | source | states |
|---|---|---|
| `TokenHex.EncodeToken` | ios/Runner/AppDelegate.swift:98-99 | the token string has exactly two characters per byte, all of them lower-case hex digits |
| `TokenHex.EncodeByte` | ios/Runner/AppDelegate.swift:98 | `%02.2hhx` yields two lower-case hex digits whose value, high digit first, is the byte |
| `TokenHex.EncodeTokenAt` | ios/Runner/AppDelegate.swift:98-99 | characters 2i and 2i+1 of the token are the encoding of byte i: byte order, no separators |
| `TokenHex.DecodeEncode` | ios/Runner/AppDelegate.swift:98-99 | decoding consecutive digit pairs of the stored token recovers the original bytes |
| `TokenHex.EncodeDecode` | ios/Runner/AppDelegate.swift:98-99 | any string that decodes is the encoding of the bytes it decodes to |
| `TokenHex.DecodeIffEncode` | ios/Runner/AppDelegate.swift:98-99 | a string decodes to a token if and only if it is that token's encoding |
| `TokenHex.EncodeInjective` | ios/Runner/AppDelegate.swift:98-99 | distinct device tokens are stored as distinct strings |
| `Categories.ConfigureNotificationCategories` | ios/Runner/AppDelegate.swift:50-87 | two categories with distinct identifiers: `TRADING_ALERT` with `[TRADING_ALERT_ACTION]`, then `PRICE_ALERT` with `[PRICE_ALERT_ACTION, DISMISS_ACTION]` |
| `Categories.OnlyDismissStaysInBackground` | ios/Runner/AppDelegate.swift:53-84 | `DISMISS_ACTION` is registered, and it is the only registered action without the foreground option |
| `Categories.RegisteredActionIds` | ios/Runner/AppDelegate.swift:53-84 | the registered action identifiers are exactly the three named ones |
| `ActionRouter.RouteAction` | ios/Runner/AppDelegate.swift:140-150 | the switch is total and ignores an action exactly when it is `DISMISS_ACTION` |
| `ActionRouter.NotificationType` | ios/Runner/AppDelegate.swift:158 | the notification type exists exactly when `type` is a key of the payload holding a string, and is that string |
| `ActionRouter.TapEmission` | ios/Runner/AppDelegate.swift:156-165 | `handleNotificationTap` is sent exactly when the payload has a string `type` and a controller is present, with that type and the entire payload as data |
| `ActionRouter.DidReceiveSteps` | ios/Runner/AppDelegate.swift:137-153 | a response causes at most one channel invocation and no store access; a dismissal causes nothing |
| `ActionRouter.NonDismissRoutedAlike` | ios/Runner/AppDelegate.swift:140-150 | the two named actions, the default tap and unknown identifiers all take the same handler with the same effect |
| `ActionRouter.DidReceiveEmission` | ios/Runner/AppDelegate.swift:140-165 | a response emits if and only if it is not a dismissal, the payload has a string `type` and a controller is present; it then emits exactly one tap event |
| `ActionRouter.RegisteredActionsRouting` | ios/Runner/AppDelegate.swift:140-150 | among the registered actions, the router handles exactly the foreground ones |
| `BackgroundFetch.FetchOutcome` | ios/Runner/AppDelegate.swift:177-188 | `failed` iff no controller; `newData` iff a controller and a non-nil reply; `noData` iff a controller and a nil reply |
| `BackgroundFetch.FetchSteps` | ios/Runner/AppDelegate.swift:177-179 | `performBackgroundFetch` is requested once with a controller present and never without one; the store is not touched |
| `BackgroundFetch.ReplyContentIgnored` | ios/Runner/AppDelegate.swift:179-185 | only whether the reply is nil matters; a `false` reply or a missing Flutter handler still gives `newData` |
| `DeepLinks.ClassifyScheme` | ios/Runner/AppDelegate.swift:200-211 | the app-link branch is taken iff the scheme equals `forcast`; the Google branch iff it is another scheme starting with `com.googleusercontent.apps` |
| `DeepLinks.ResolveDeepLink` | ios/Runner/AppDelegate.swift:200-218 | handled iff the scheme is exactly `forcast`; then the absolute URL string is sent iff a controller is present |
| `DeepLinks.OpenUrlResult` | ios/Runner/AppDelegate.swift:200-211 | a handled link returns `true`; a deferred one returns the superclass's answer |
| `DeepLinks.NonAppSchemesDeferAlike` | ios/Runner/AppDelegate.swift:205-211 | Google Sign-In schemes, nil schemes and all other schemes are deferred identically |
| `DeepLinks.SchemeMatchIsExact` | ios/Runner/AppDelegate.swift:200 | `Forcast` and `forcast2` are not the app scheme; a Google client-id scheme falls in the Google branch |
| `DeepLinks.HandledWithoutController` | ios/Runner/AppDelegate.swift:200-203 | a missing controller drops the deep-link event but the call still returns `true` |
| `DeepLinks.DeepLinkSteps` | ios/Runner/AppDelegate.swift:214-218 | a deferred link causes nothing; a handled one causes only its optional channel invocation |
| `CredentialMonitor.RevocationSteps` | ios/Runner/AppDelegate.swift:252-260 | cleanup first removes `appleUserID`, then emits `credentialRevoked` only with a controller present, and does nothing else |
| `CredentialMonitor.MonitorSteps` | ios/Runner/AppDelegate.swift:226-246 | the monitor acts iff `appleUserID` is stored and the verdict is `revoked`, and then acts exactly as the cleanup |
| `CredentialMonitor.NonRevokedIsSilent` | ios/Runner/AppDelegate.swift:229-246 | with no stored id, or with an authorized, not-found or other verdict, the store and event log are unchanged |
| `CredentialMonitor.RevokedClearsId` | ios/Runner/AppDelegate.swift:234-239 | after a revocation `appleUserID` is gone and `credentialRevoked` was emitted once with a controller present, otherwise not at all |
| `CredentialMonitor.OtherKeysUntouched` | ios/Runner/AppDelegate.swift:252-260 | no key but `appleUserID` (the device token among them) is changed or removed by the monitor |
| `CredentialMonitor.RemovalPrecedesEmission` | ios/Runner/AppDelegate.swift:253-259 | any emission of the monitor comes after the removal of `appleUserID` |
| `AppDelegateModel.AppDelegate.Write` | ios/Runner/AppDelegate.swift:103 | `UserDefaults.standard.set`: the store maps the key to the value and is otherwise unchanged; the events are unchanged; the trace grows by that one write |
| `AppDelegateModel.AppDelegate.RemoveObject` | ios/Runner/AppDelegate.swift:254 | `removeObject(forKey:)`: the store loses the key and is otherwise unchanged; the events are unchanged; the trace grows by that one removal |
| `AppDelegateModel.AppDelegate.Invoke` | ios/Runner/AppDelegate.swift:258-259 | `channel.invokeMethod`: the event is appended to the events, the store is unchanged, the trace grows by that one emission |
| `AppDelegateModel.AppDelegate.DidRegisterForRemoteNotifications` | ios/Runner/AppDelegate.swift:93-107 | only `deviceToken` is written, with the hex token, which decodes back to the received bytes; no event is sent |
| `AppDelegateModel.AppDelegate.HandleNotificationAction` | ios/Runner/AppDelegate.swift:156-165 | appends the tap emission (if any) to the events and leaves the store unchanged |
| `AppDelegateModel.AppDelegate.DidReceive` | ios/Runner/AppDelegate.swift:132-154 | the trace grows by exactly the response's routed steps; the store is unchanged |
| `AppDelegateModel.AppDelegate.PerformFetch` | ios/Runner/AppDelegate.swift:169-189 | returns the single fetch outcome and requests `performBackgroundFetch` only with a controller present |
| `AppDelegateModel.AppDelegate.HandleDeepLink` | ios/Runner/AppDelegate.swift:214-219 | sends the absolute URL string only with a controller present; the store is unchanged |
| `AppDelegateModel.AppDelegate.OpenURL` | ios/Runner/AppDelegate.swift:193-212 | returns the resolver's answer and grows the trace by exactly the resolved link's steps |
| `AppDelegateModel.AppDelegate.HandleAppleSignInRevoked` | ios/Runner/AppDelegate.swift:252-263 | removes `appleUserID` and then, with a controller, appends `credentialRevoked`, in that order in the trace |
| `AppDelegateModel.AppDelegate.SetupAppleSignInStateMonitoring` | ios/Runner/AppDelegate.swift:223-250 | the trace grows by the monitor's steps for the store as it was and the given verdict; the store and events are their replay |

## Left out

- Plugin registration, the notification permission request and the remote-notification registration (lines 15-31): calls into the OS with no decision logic.
- Badge resets and the background-fetch interval (lines 37, 40, 270): single platform assignments.
- The `super` call after storing the device token (line 106), which hands the token on to the plugins' own delegates: code the model cannot see.
- `didFailToRegisterForRemoteNotificationsWithError` (lines 109-115): it only logs and calls `super`.
- Foreground presentation options (lines 118-128): OS-version-gated capability selection.
- The lifecycle hooks (lines 267-281): pass-throughs to the superclass.
- `print` logging, the `#available` checks (assumed to hold), and the calls to `super` and `completionHandler()` in `didReceive`. These calls do not depend on the route.
- `DispatchQueue.main.async` and the `[weak self]` capture (lines 26, 228, 237): threading. The provider's answer is a parameter, and the revocation cleanup runs whenever the delegate is still alive. A delegate deallocated before the answer arrives is not modelled.
- The construction of `FlutterMethodChannel` objects: reduced to appending an `Event` to a log.
- A Flutter reply to `performBackgroundFetch` that never arrives: the source then never calls its completion handler, and the model does not cover that case. The source has no deadline, and the model adds none.
- URL parsing (`URL.scheme`, `absoluteString`): Foundation's; the scheme and the string are inputs.
- The `error` argument of the credential-state callback: the source ignores it, and so does the model. Only the state is an input.
- `userInfo` keys are `AnyHashable` in Swift; the model keys the payload by strings. Only the string key `type` is looked up, so no decision changes.
