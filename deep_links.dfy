/**
 * `application(_:open:options:)` and `handleDeepLink`: a URL whose scheme is
 * exactly `forcast` is forwarded to Flutter and reported handled; a Google
 * Sign-In scheme and every other scheme (or none) go to the superclass.
 */
module DeepLinks {
  import opened Wrappers
  import opened Channel
  import opened SharedState

  const AppScheme := "forcast"
  const GoogleSignInPrefix := "com.googleusercontent.apps"

  datatype SchemeKind = AppLink | GoogleSignIn | Foreign

  /** The two `if`s on `url.scheme`, in source order. */
  function ClassifyScheme(scheme: Option<string>): (k: SchemeKind)
    ensures k == AppLink <==> scheme == Some(AppScheme)
    ensures k == GoogleSignIn <==> scheme.Some? && scheme.value != AppScheme && GoogleSignInPrefix <= scheme.value
  {
    if scheme == Some(AppScheme) then AppLink
    else if scheme.Some? && GoogleSignInPrefix <= scheme.value then GoogleSignIn
    else Foreign
  }

  /** Handled (with what is sent to Flutter, if anything), or left to `super`. */
  datatype Decision = Handled(emission: Option<Event>) | Deferred

  function ResolveDeepLink(scheme: Option<string>, absoluteString: string, controllerPresent: bool): (d: Decision)
    ensures d.Handled? <==> scheme == Some(AppScheme)
    ensures d.Handled? ==> (d.emission.Some? <==> controllerPresent)
    ensures d.Handled? && d.emission.Some? ==> d.emission.value == DeepLink(absoluteString)
  {
    match ClassifyScheme(scheme)
    case AppLink => Handled(if controllerPresent then Some(DeepLink(absoluteString)) else None)
    case GoogleSignIn => Deferred
    case Foreign => Deferred
  }

  /** The Boolean the delegate returns: `true` when handled, otherwise whatever `super` answers. */
  function OpenUrlResult(d: Decision, superResult: bool): (handled: bool)
    ensures d.Handled? ==> handled
    ensures d.Deferred? ==> handled == superResult
  {
    if d.Handled? then true else superResult
  }

  /** Google Sign-In schemes, a missing scheme and every other scheme are deferred identically. */
  lemma NonAppSchemesDeferAlike(scheme: Option<string>, absoluteString: string, controllerPresent: bool)
    requires scheme != Some(AppScheme)
    ensures ResolveDeepLink(scheme, absoluteString, controllerPresent) == Deferred
    ensures ResolveDeepLink(scheme, absoluteString, controllerPresent) == ResolveDeepLink(None, absoluteString, controllerPresent)
  {
  }

  /** The comparison is exact: a case variant or an extension of `forcast` is not the app scheme. */
  lemma SchemeMatchIsExact(absoluteString: string, controllerPresent: bool)
    ensures ResolveDeepLink(Some("Forcast"), absoluteString, controllerPresent) == Deferred
    ensures ResolveDeepLink(Some("forcast2"), absoluteString, controllerPresent) == Deferred
    ensures ClassifyScheme(Some("com.googleusercontent.apps.123-abc")) == GoogleSignIn
  {
  }

  /** A missing Flutter controller drops the event but still reports the link handled. */
  lemma HandledWithoutController(absoluteString: string, superResult: bool)
    ensures var d := ResolveDeepLink(Some(AppScheme), absoluteString, false);
      d == Handled(None) && OpenUrlResult(d, superResult)
  {
  }

  function DeepLinkSteps(d: Decision): (steps: seq<Step>)
    ensures forall i :: 0 <= i < |steps| ==> steps[i].Emit?
    ensures d.Deferred? ==> steps == []
    ensures d.Handled? ==> Emitted(steps) == ToSeq(d.emission)
  {
    match d
    case Handled(e) => Emission(e)
    case Deferred => []
  }
}
