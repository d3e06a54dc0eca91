/**
 * The application delegate as an object: the `UserDefaults.standard` store it
 * writes, the channel invocations it makes, and its callbacks with the
 * platform's answers (the root view controller being a Flutter one, the
 * Flutter reply, the provider's verdict, `super`'s answer) passed in.
 */
module AppDelegateModel {
  import opened Wrappers
  import opened TokenHex
  import opened Categories
  import opened Channel
  import opened SharedState
  import opened ActionRouter
  import opened BackgroundFetch
  import opened DeepLinks
  import opened CredentialMonitor

  class AppDelegate {
    var store: Store
    var events: seq<Event>
    /** The store as it was at launch. */
    ghost const launchStore: Store
    /** Every effect on the store and the channels since launch, in order. */
    ghost var trace: seq<Step>

    ghost predicate Valid()
      reads this
    {
      store == Replay(launchStore, trace) && events == Emitted(trace)
    }

    constructor (defaults: Store)
      ensures Valid() && launchStore == defaults
      ensures store == defaults && events == [] && trace == []
    {
      store := defaults;
      events := [];
      launchStore := defaults;
      trace := [];
    }

    /** `UserDefaults.standard.set(value, forKey: key)` */
    method Write(key: string, value: string)
      requires Valid()
      modifies this
      ensures Valid()
      ensures trace == old(trace) + [Step.Write(key, value)]
      ensures store == old(store)[key := value] && events == old(events)
    {
      store := store[key := value];
      trace := trace + [Step.Write(key, value)];
      assert trace[..|trace| - 1] == old(trace);
    }

    /** `UserDefaults.standard.removeObject(forKey: key)` */
    method RemoveObject(key: string)
      requires Valid()
      modifies this
      ensures Valid()
      ensures trace == old(trace) + [Remove(key)]
      ensures store == old(store) - {key} && events == old(events)
    {
      store := store - {key};
      trace := trace + [Remove(key)];
      assert trace[..|trace| - 1] == old(trace);
    }

    /** `channel.invokeMethod(...)` */
    method Invoke(e: Event)
      requires Valid()
      modifies this
      ensures Valid()
      ensures trace == old(trace) + [Emit(e)]
      ensures store == old(store) && events == old(events) + [e]
    {
      events := events + [e];
      trace := trace + [Emit(e)];
      assert trace[..|trace| - 1] == old(trace);
    }

    /** `application(_:didRegisterForRemoteNotificationsWithDeviceToken:)` */
    method DidRegisterForRemoteNotifications(deviceToken: seq<Byte>)
      requires Valid()
      modifies this
      ensures Valid()
      ensures trace == old(trace) + [Step.Write(DeviceTokenKey, EncodeToken(deviceToken))]
      ensures store == old(store)[DeviceTokenKey := EncodeToken(deviceToken)] && events == old(events)
      ensures DecodeToken(store[DeviceTokenKey]) == Some(deviceToken)
    {
      var token := EncodeToken(deviceToken);
      Write(DeviceTokenKey, token);
      DecodeEncode(deviceToken);
    }

    /** `handleNotificationAction(userInfo:)` */
    method HandleNotificationAction(userInfo: Payload, controllerPresent: bool)
      requires Valid()
      modifies this
      ensures Valid()
      ensures trace == old(trace) + Emission(TapEmission(userInfo, controllerPresent))
      ensures store == old(store) && events == old(events) + ToSeq(TapEmission(userInfo, controllerPresent))
    {
      if "type" in userInfo && userInfo["type"].StringValue? {
        var notificationType := userInfo["type"].s;
        if controllerPresent {
          Invoke(NotificationTap(notificationType, userInfo));
        }
      }
    }

    /** `userNotificationCenter(_:didReceive:withCompletionHandler:)` */
    method DidReceive(actionId: string, userInfo: Payload, controllerPresent: bool)
      requires Valid()
      modifies this
      ensures Valid()
      ensures trace == old(trace) + DidReceiveSteps(actionId, userInfo, controllerPresent)
      ensures store == old(store)
      ensures events == old(events) + Emitted(DidReceiveSteps(actionId, userInfo, controllerPresent))
    {
      if actionId == TradingAlertActionId || actionId == PriceAlertActionId {
        HandleNotificationAction(userInfo, controllerPresent);
      } else if actionId == DismissActionId {
      } else {
        HandleNotificationAction(userInfo, controllerPresent);
      }
    }

    /** `application(_:performFetchWithCompletionHandler:)`; `reply` is what the Flutter side answers. */
    method PerformFetch(controllerPresent: bool, reply: Option<ReplyValue>) returns (outcome: FetchResult)
      requires Valid()
      modifies this
      ensures Valid()
      ensures outcome == FetchOutcome(controllerPresent, reply)
      ensures trace == old(trace) + FetchSteps(controllerPresent)
      ensures store == old(store)
      ensures events == old(events) + (if controllerPresent then [BackgroundFetchRequested] else [])
    {
      if controllerPresent {
        Invoke(BackgroundFetchRequested);
        if reply != None {
          outcome := NewData;
        } else {
          outcome := NoData;
        }
      } else {
        outcome := Failed;
      }
    }

    /** `handleDeepLink(url:)` */
    method HandleDeepLink(absoluteString: string, controllerPresent: bool)
      requires Valid()
      modifies this
      ensures Valid()
      ensures trace == old(trace) + (if controllerPresent then [Emit(DeepLink(absoluteString))] else [])
      ensures store == old(store)
      ensures events == old(events) + (if controllerPresent then [DeepLink(absoluteString)] else [])
    {
      if controllerPresent {
        Invoke(DeepLink(absoluteString));
      }
    }

    /** `application(_:open:options:)`; `superResult` is what the superclass answers. */
    method OpenURL(scheme: Option<string>, absoluteString: string, controllerPresent: bool, superResult: bool)
      returns (handled: bool)
      requires Valid()
      modifies this
      ensures Valid()
      ensures var d := ResolveDeepLink(scheme, absoluteString, controllerPresent);
        && handled == OpenUrlResult(d, superResult)
        && trace == old(trace) + DeepLinkSteps(d)
        && events == old(events) + Emitted(DeepLinkSteps(d))
      ensures store == old(store)
    {
      if scheme == Some(AppScheme) {
        HandleDeepLink(absoluteString, controllerPresent);
        return true;
      }
      if scheme.Some? && GoogleSignInPrefix <= scheme.value {
        return superResult;
      }
      return superResult;
    }

    /** `handleAppleSignInRevoked()`: the id goes first, then Flutter is told. */
    method HandleAppleSignInRevoked(controllerPresent: bool)
      requires Valid()
      modifies this
      ensures Valid()
      ensures trace == old(trace) + RevocationSteps(controllerPresent)
      ensures store == old(store) - {AppleUserIdKey}
      ensures events == old(events) + (if controllerPresent then [CredentialRevoked] else [])
    {
      RemoveObject(AppleUserIdKey);
      if controllerPresent {
        Invoke(CredentialRevoked);
      }
    }

    /** `setupAppleSignInStateMonitoring()` with the provider's eventual `verdict`. */
    method SetupAppleSignInStateMonitoring(verdict: CredentialState, controllerPresent: bool)
      requires Valid()
      modifies this
      ensures Valid()
      ensures trace == old(trace) + MonitorSteps(old(store), verdict, controllerPresent)
      ensures store == Replay(old(store), MonitorSteps(old(store), verdict, controllerPresent))
      ensures events == old(events) + Emitted(MonitorSteps(old(store), verdict, controllerPresent))
    {
      if AppleUserIdKey in store {
        match verdict
        case Authorized =>
        case Revoked =>
          HandleAppleSignInRevoked(controllerPresent);
        case NotFound =>
        case Transferred =>
      }
      ReplayAppend(launchStore, old(trace), MonitorSteps(old(store), verdict, controllerPresent));
      EmittedAppend(old(trace), MonitorSteps(old(store), verdict, controllerPresent));
    }
  }
}
