/**
 * The notification categories that `configureNotificationCategories` registers
 * once at launch: a trading alert offering one foreground action, and a price
 * alert offering a foreground action followed by a background dismiss action.
 */
module Categories {

  /** A `UNNotificationAction`; `foreground` is whether its options hold `.foreground`. */
  datatype NotificationAction = NotificationAction(identifier: string, title: string, foreground: bool)

  /** A `UNNotificationCategory`; its intent identifiers and options are empty in the source. */
  datatype NotificationCategory = NotificationCategory(identifier: string, actions: seq<NotificationAction>)

  const TradingAlertActionId := "TRADING_ALERT_ACTION"
  const PriceAlertActionId := "PRICE_ALERT_ACTION"
  const DismissActionId := "DISMISS_ACTION"
  const TradingAlertId := "TRADING_ALERT"
  const PriceAlertId := "PRICE_ALERT"

  const TradingAlertAction := NotificationAction(TradingAlertActionId, "View Details", true)
  const PriceAlertAction := NotificationAction(PriceAlertActionId, "Open App", true)
  const DismissAction := NotificationAction(DismissActionId, "Dismiss", false)

  /** No two categories share an identifier, and no category lists two actions with one identifier. */
  predicate WellFormed(registry: seq<NotificationCategory>) {
    && (forall i, j :: 0 <= i < j < |registry| ==> registry[i].identifier != registry[j].identifier)
    && (forall c, i, j :: c in registry && 0 <= i < j < |c.actions| ==>
          c.actions[i].identifier != c.actions[j].identifier)
  }

  /** Does any category of the registry offer an action with this identifier? */
  predicate Offers(registry: seq<NotificationCategory>, actionId: string) {
    exists c, a :: c in registry && a in c.actions && a.identifier == actionId
  }

  /** The set handed to `setNotificationCategories`, in the order the source builds it. */
  function ConfigureNotificationCategories(): (registry: seq<NotificationCategory>)
    ensures |registry| == 2 && WellFormed(registry)
    ensures registry[0].identifier == TradingAlertId
    ensures registry[0].actions == [TradingAlertAction]
    ensures registry[1].identifier == PriceAlertId
    ensures registry[1].actions == [PriceAlertAction, DismissAction]
  {
    [ NotificationCategory(TradingAlertId, [TradingAlertAction]),
      NotificationCategory(PriceAlertId, [PriceAlertAction, DismissAction]) ]
  }

  /** The dismiss action is the one and only registered action that does not bring the app to the foreground. */
  lemma OnlyDismissStaysInBackground()
    ensures forall c, a :: c in ConfigureNotificationCategories() && a in c.actions ==>
      (!a.foreground <==> a.identifier == DismissActionId)
    ensures Offers(ConfigureNotificationCategories(), DismissActionId)
  {
  }

  /** Exactly three action identifiers are registered. */
  lemma RegisteredActionIds(actionId: string)
    ensures Offers(ConfigureNotificationCategories(), actionId) <==>
      actionId in {TradingAlertActionId, PriceAlertActionId, DismissActionId}
  {
  }
}
