/**
 The error-reporting middleware. For every dispatched action it decides which
 warning toasts to show and then hands the action, unchanged, to the next
 stage. Toasts are recorded as the list of arguments given to `toast.warn`;
 the argument is optional because a serialized error's message may be
 missing.
 */
module ErrorLogger {

  import opened Wrappers
  import opened JsValues

  /** The lifecycle stage an async-thunk action reports in its `meta`. */
  datatype RequestStatus = Pending | Fulfilled | Rejected

  /** An action's `meta`: async-thunk actions carry a request status. */
  datatype ActionMeta =
    | PlainMeta
    | ThunkMeta(requestStatus: RequestStatus, rejectedWithValue: bool)

  /** The serialized error a rejected action carries. */
  datatype SerializedError = SerializedError(name: Option<string>, message: Option<string>)

  datatype Action = Action(actionType: string, payload: JsValue, error: SerializedError, meta: ActionMeta)

  /** `isRejected(action)`: a thunk action in the rejected stage. */
  predicate IsRejected(a: Action) {
    a.meta.ThunkMeta? && a.meta.requestStatus == Rejected
  }

  /** `isRejectedWithValue(action)`: a rejected action whose payload is the server's error value. */
  predicate IsRejectedWithValue(a: Action) {
    IsRejected(a) && a.meta.rejectedWithValue
  }

  /** The name a client-side construction error is thrown under. */
  const CustomErrorName: string := "CustomError"

  /**
   `isPayloadErrorMessage`: the payload is a non-null object with a `data`
   key whose `error` is a string. A `data.error` that is a per-field map,
   or missing, does not qualify.
   */
  predicate IsPayloadErrorMessage(payload: JsValue)
    ensures IsPayloadErrorMessage(payload) <==>
      && payload.Object?
      && "data" in payload.fields
      && payload.fields["data"].Object?
      && "error" in payload.fields["data"].fields
      && payload.fields["data"].fields["error"].Str?
  {
    && TypeOf(payload) == "object"
    && payload != Null
    && HasProperty(payload, "data")
    && TypeOf(OptionalGet(Get(payload, "data"), "error")) == "string"
  }

  /** `payload.data.error`, for a payload the predicate accepts. */
  function PayloadErrorText(payload: JsValue): string
    requires IsPayloadErrorMessage(payload)
  {
    payload.fields["data"].fields["error"].s
  }

  /** The first check: a rejected action thrown as a `CustomError` shows its message. */
  function CustomErrorWarnings(a: Action): (w: seq<Option<string>>)
    ensures |w| <= 1
    ensures |w| == 1 <==> IsRejected(a) && a.error.name == Some(CustomErrorName)
    ensures |w| == 1 ==> w[0] == a.error.message
  {
    if IsRejected(a) && a.error.name == Some(CustomErrorName) then [a.error.message] else []
  }

  /** The second check: a server rejection whose payload has a string error shows that string. */
  function ServerErrorWarnings(a: Action): (w: seq<Option<string>>)
    ensures |w| <= 1
    ensures |w| == 1 <==> IsRejectedWithValue(a) && IsPayloadErrorMessage(a.payload)
    ensures |w| == 1 ==> w[0] == Some(PayloadErrorText(a.payload))
  {
    if IsRejectedWithValue(a) && IsPayloadErrorMessage(a.payload) then [Some(PayloadErrorText(a.payload))] else []
  }

  /** What one pass of the middleware does: the toasts it shows and the actions it hands on. */
  datatype Step = Step(warnings: seq<Option<string>>, forwarded: seq<Action>)

  /**
   `rtkQueryErrorLogger` applied to one action: the two independent checks
   in order, then `next(action)` exactly once with the action unchanged.
   */
  function RtkQueryErrorLogger(a: Action): (step: Step)
    ensures step.forwarded == [a]
    ensures step.warnings == CustomErrorWarnings(a) + ServerErrorWarnings(a)
    ensures |step.warnings| <= 2
    ensures !IsRejected(a) ==> step.warnings == []
  {
    Step(CustomErrorWarnings(a) + ServerErrorWarnings(a), [a])
  }

  /** Rejected-with-value actions are rejected actions. */
  lemma RejectedWithValueIsRejected(a: Action)
    ensures IsRejectedWithValue(a) ==> IsRejected(a)
  {
  }

  /** Null and every non-object payload are turned away. */
  lemma NonObjectPayloadRejected(payload: JsValue)
    requires TypeOf(payload) != "object" || payload == Null
    ensures !IsPayloadErrorMessage(payload)
  {
  }

  /**
   A server validation error, whose `data.error` is a map from field names to
   messages (or anything else but a string), produces no toast: the form shows
   it instead. The payload and its `data` may carry other keys, such as `status`.
   */
  lemma EntityErrorNotToasted(a: Action)
    requires a.payload.Object? && "data" in a.payload.fields && a.payload.fields["data"].Object?
    requires "error" in a.payload.fields["data"].fields && !a.payload.fields["data"].fields["error"].Str?
    ensures ServerErrorWarnings(a) == []
  {
  }

  /**
   A cache-layer rejection (rejected without a value, not a `CustomError`)
   passes silently.
   */
  lemma CacheRejectionSilent(a: Action)
    requires IsRejected(a) && !IsRejectedWithValue(a) && a.error.name != Some(CustomErrorName)
    ensures RtkQueryErrorLogger(a).warnings == []
  {
  }

  /** When both checks fire, the `CustomError` message comes first. */
  lemma BothWarningsInOrder(a: Action)
    requires IsRejected(a) && a.error.name == Some(CustomErrorName)
    requires IsRejectedWithValue(a) && IsPayloadErrorMessage(a.payload)
    ensures RtkQueryErrorLogger(a).warnings == [a.error.message, Some(PayloadErrorText(a.payload))]
  {
  }

  /** Every toast shown is one of the two messages the checks allow, and each for its reason. */
  lemma EveryWarningJustified(a: Action, k: int)
    requires 0 <= k < |RtkQueryErrorLogger(a).warnings|
    ensures var w := RtkQueryErrorLogger(a).warnings[k];
      || (IsRejected(a) && a.error.name == Some(CustomErrorName) && w == a.error.message)
      || (IsRejectedWithValue(a) && IsPayloadErrorMessage(a.payload) && w == Some(PayloadErrorText(a.payload)))
  {
  }
}
