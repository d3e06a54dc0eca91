/**
 * `application(_:performFetchWithCompletionHandler:)`: with a Flutter view
 * controller present, asks Flutter to `performBackgroundFetch` and completes
 * with `newData` for any non-nil reply and `noData` for nil; without one it
 * completes with `failed` and asks nothing.
 */
module BackgroundFetch {
  import opened Wrappers
  import opened Channel
  import opened SharedState

  /** `UIBackgroundFetchResult` */
  datatype FetchResult = NewData | NoData | Failed

  /** A non-nil reply of the Flutter side: its value, a `FlutterError`, or `FlutterMethodNotImplemented`. */
  datatype ReplyValue = BoolReply(b: bool) | ErrorReply(code: string) | NotImplemented | OtherReply(description: string)

  /** The value passed to the completion handler, once per invocation. */
  function FetchOutcome(controllerPresent: bool, reply: Option<ReplyValue>): (r: FetchResult)
    ensures r == Failed <==> !controllerPresent
    ensures r == NewData <==> controllerPresent && reply.Some?
    ensures r == NoData <==> controllerPresent && reply.None?
  {
    if controllerPresent then
      if reply != None then NewData else NoData
    else Failed
  }

  /** The channel request precedes the outcome and is made only with a controller present. */
  function FetchSteps(controllerPresent: bool): (steps: seq<Step>)
    ensures Emitted(steps) == (if controllerPresent then [BackgroundFetchRequested] else [])
    ensures forall i :: 0 <= i < |steps| ==> steps[i].Emit?
  {
    if controllerPresent then [Emit(BackgroundFetchRequested)] else []
  }

  /** Only nil-ness of the reply matters: a `false`, an error or a missing handler on the Flutter side still report new data. */
  lemma ReplyContentIgnored(controllerPresent: bool, r1: ReplyValue, r2: ReplyValue)
    ensures FetchOutcome(controllerPresent, Some(r1)) == FetchOutcome(controllerPresent, Some(r2))
    ensures FetchOutcome(true, Some(BoolReply(false))) == NewData
    ensures FetchOutcome(true, Some(NotImplemented)) == NewData
  {
  }
}
