/**
 * `userNotificationCenter(_:didReceive:)` and `handleNotificationAction`: the
 * action identifier of the user's response picks a branch of a total switch;
 * every branch but the dismiss action forwards the notification's payload to
 * Flutter, provided the payload carries a string `type` and a Flutter view
 * controller is the window's root.
 */
module ActionRouter {
  import opened Wrappers
  import opened Channel
  import opened Categories
  import opened SharedState

  /** The identifier iOS reports when the user taps the notification itself. */
  const DefaultActionId := "com.apple.UNNotificationDefaultActionIdentifier"

  datatype Disposition = HandleAction | Ignore

  /** The switch on `response.actionIdentifier`. */
  function RouteAction(actionId: string): (d: Disposition)
    ensures d == Ignore <==> actionId == DismissActionId
  {
    if actionId == TradingAlertActionId || actionId == PriceAlertActionId then HandleAction
    else if actionId == DismissActionId then Ignore
    else HandleAction
  }

  /** `userInfo["type"] as? String` */
  function NotificationType(userInfo: Payload): (t: Option<string>)
    ensures t.Some? <==> "type" in userInfo && userInfo["type"].StringValue?
    ensures t.Some? ==> userInfo["type"] == StringValue(t.value)
  {
    if "type" in userInfo then
      match userInfo["type"]
      case StringValue(s) => Some(s)
      case OtherValue(_) => None
    else None
  }

  /** What `handleNotificationAction` sends to Flutter, if anything. */
  function TapEmission(userInfo: Payload, controllerPresent: bool): (e: Option<Event>)
    ensures e.Some? <==> controllerPresent && "type" in userInfo && userInfo["type"].StringValue?
    ensures e.Some? ==> e.value.NotificationTap?
    ensures e.Some? ==> userInfo["type"] == StringValue(e.value.notificationType)
    ensures e.Some? ==> e.value.data == userInfo
  {
    match NotificationType(userInfo)
    case Some(t) => if controllerPresent then Some(NotificationTap(t, userInfo)) else None
    case None => None
  }

  /** Everything one response causes: at most one channel invocation, no store access. */
  function DidReceiveSteps(actionId: string, userInfo: Payload, controllerPresent: bool): (steps: seq<Step>)
    ensures |steps| <= 1
    ensures forall i :: 0 <= i < |steps| ==> steps[i].Emit?
    ensures actionId == DismissActionId ==> steps == []
  {
    match RouteAction(actionId)
    case HandleAction => Emission(TapEmission(userInfo, controllerPresent))
    case Ignore => []
  }

  /** The two named actions, the default tap and any unknown identifier are all handled alike. */
  lemma NonDismissRoutedAlike(a1: string, a2: string, userInfo: Payload, controllerPresent: bool)
    requires a1 != DismissActionId && a2 != DismissActionId
    ensures DidReceiveSteps(a1, userInfo, controllerPresent) == DidReceiveSteps(a2, userInfo, controllerPresent)
    ensures RouteAction(DefaultActionId) == RouteAction(TradingAlertActionId) == RouteAction(PriceAlertActionId) == HandleAction
  {
  }

  /** A response emits exactly when it is not a dismissal, the payload has a string `type`, and a controller is present; it emits that type with the whole payload. */
  lemma DidReceiveEmission(actionId: string, userInfo: Payload, controllerPresent: bool)
    ensures var events := Emitted(DidReceiveSteps(actionId, userInfo, controllerPresent));
      && (events != [] <==>
          actionId != DismissActionId && controllerPresent && "type" in userInfo && userInfo["type"].StringValue?)
      && (events != [] ==> events == [NotificationTap(userInfo["type"].s, userInfo)])
  {
  }

  /** Among the registered actions, the router ignores exactly the one without the foreground option. */
  lemma RegisteredActionsRouting()
    ensures forall c, a :: c in ConfigureNotificationCategories() && a in c.actions ==>
      (RouteAction(a.identifier) == HandleAction <==> a.foreground)
  {
  }
}
