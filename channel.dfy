/**
 * What the delegate hands to the Flutter side over its method channels, and the
 * notification payload (`userInfo`) it forwards. Each channel invocation is one
 * `Event`; the channel objects themselves are not modelled.
 */
module Channel {

  /** A value of the notification's `userInfo`: a Swift `String`, or anything else. */
  datatype PayloadValue = StringValue(s: string) | OtherValue(description: string)

  type Payload = map<string, PayloadValue>

  datatype Event =
    | NotificationTap(notificationType: string, data: Payload)  // `handleNotificationTap` on com.forcast.app/notifications
    | BackgroundFetchRequested                                  // `performBackgroundFetch` on com.forcast.app/background
    | DeepLink(url: string)                                     // `handleDeepLink` on com.forcast.app/deeplink
    | CredentialRevoked                                         // `credentialRevoked` on com.forcast.app/apple_signin
}
