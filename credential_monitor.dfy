/**
 * `setupAppleSignInStateMonitoring` and `handleAppleSignInRevoked`: when an
 * Apple user id is stored, the provider's verdict on it is awaited; only a
 * `revoked` verdict has an effect, which is to remove the id from the store and
 * then, if a Flutter controller is present, to send `credentialRevoked`.
 */
module CredentialMonitor {
  import opened Channel
  import opened SharedState

  /** `ASAuthorizationAppleIDProvider.CredentialState`; `Transferred` stands for every state the `default:` branch catches. */
  datatype CredentialState = Authorized | Revoked | NotFound | Transferred

  /** The cleanup of `handleAppleSignInRevoked`, in program order. */
  function RevocationSteps(controllerPresent: bool): (steps: seq<Step>)
    ensures |steps| >= 1 && steps[0] == Remove(AppleUserIdKey)
    ensures Emitted(steps) == (if controllerPresent then [CredentialRevoked] else [])
    ensures forall i :: 1 <= i < |steps| ==> steps[i].Emit?
  {
    [Remove(AppleUserIdKey)] + (if controllerPresent then [Emit(CredentialRevoked)] else [])
  }

  /** One run of the monitor, given the store at launch and the provider's verdict. */
  function MonitorSteps(store: Store, verdict: CredentialState, controllerPresent: bool): (steps: seq<Step>)
    ensures steps != [] <==> AppleUserIdKey in store && verdict == Revoked
    ensures steps != [] ==> steps == RevocationSteps(controllerPresent)
  {
    if AppleUserIdKey in store then
      match verdict
      case Authorized => []
      case Revoked => RevocationSteps(controllerPresent)
      case NotFound => []
      case Transferred => []
    else []
  }

  /** Without a stored id, or with any verdict but `revoked`, the store and the channels are left alone. */
  lemma NonRevokedIsSilent(store: Store, verdict: CredentialState, controllerPresent: bool)
    requires AppleUserIdKey !in store || verdict != Revoked
    ensures Replay(store, MonitorSteps(store, verdict, controllerPresent)) == store
    ensures Emitted(MonitorSteps(store, verdict, controllerPresent)) == []
  {
  }

  /** A revocation clears the stored id and emits `credentialRevoked` at most once, exactly when a controller is present. */
  lemma RevokedClearsId(store: Store, controllerPresent: bool)
    requires AppleUserIdKey in store
    ensures AppleUserIdKey !in Replay(store, MonitorSteps(store, Revoked, controllerPresent))
    ensures Emitted(MonitorSteps(store, Revoked, controllerPresent)) ==
      (if controllerPresent then [CredentialRevoked] else [])
  {
  }

  /** No key other than `appleUserID` (the device token among them) is ever touched. */
  lemma {:induction false} OtherKeysUntouched(store: Store, verdict: CredentialState, controllerPresent: bool, key: string)
    requires key != AppleUserIdKey
    ensures var after := Replay(store, MonitorSteps(store, verdict, controllerPresent));
      (key in after <==> key in store) && (key in store ==> after[key] == store[key])
  {
    var steps := MonitorSteps(store, verdict, controllerPresent);
    assert !Touches(steps, key) by {
      if steps != [] {
        assert steps == RevocationSteps(controllerPresent);
      }
    }
    ReplayUntouched(store, steps, key);
  }

  /** The emission, when there is one, comes after the removal. */
  lemma RemovalPrecedesEmission(store: Store, verdict: CredentialState, controllerPresent: bool)
    ensures var steps := MonitorSteps(store, verdict, controllerPresent);
      forall i :: 0 <= i < |steps| && steps[i].Emit? ==> 0 < i && steps[0] == Remove(AppleUserIdKey)
  {
  }
}
