/** Decoded event bodies and the gates that look at the body alone. */
module Events {
  import opened Wrappers

  function Truthy(field: Option<string>): (r: Option<string>)
    ensures r == field || (field == Some("") && r == None)
    ensures r != Some("")
  {
    if field == Some("") then None else field
  }

  /** A decoded payload: a dictionary with the fields the notifier reads, or anything else.
      A text field is `Some` when it holds a string; a numeric field is what `_to_float`
      makes of it, so `None` covers both a missing and an unparseable value. */
  datatype Body =
    | Raw
    | Dict(eventType: Option<string>, clientOrderId: Option<string>, strategyId: Option<string>,
           state: Option<string>, orderSide: Option<string>, orderType: Option<string>,
           timeInForce: Option<string>, quantity: Option<real>, lastQty: Option<real>,
           lastPx: Option<real>)
  {
    predicate HasType(t: string) {
      Dict? && eventType == Some(t)
    }

    predicate TypeIn(ts: set<string>) {
      Dict? && eventType.Some? && eventType.value in ts
    }

    /** The order this body is about; empty ids count as missing. */
    function OrderId(): (r: Option<string>)
      ensures r.Some? ==> Dict? && clientOrderId == r && r != Some("")
      ensures r.None? ==> Raw? || clientOrderId in {None, Some("")}
    {
      if Dict? then Truthy(clientOrderId) else None
    }
  }

  const ORDER_INITIALIZED := "OrderInitialized"
  const ORDER_FILLED := "OrderFilled"

  const TRANSIENT_COMPONENT_STATES := {
    "PRE_INITIALIZED", "READY", "INITIALIZED", "STARTING", "STOPPING", "RESUMING",
    "RESETTING", "DISPOSING", "DISPOSED", "DEGRADING", "FAULTING"
  }

  const TRANSIENT_ORDER_EVENTS := {
    "OrderInitialized", "OrderSubmitted", "OrderAccepted", "OrderPendingUpdate",
    "OrderPendingCancel", "OrderReleased", "OrderEmulated"
  }

  const SILENCED_EVENT_TYPES := {"PositionChanged", "AccountState"}

  const TERMINAL_ORDER_EVENTS := {"OrderCanceled", "OrderRejected", "OrderDenied", "OrderExpired"}

  predicate ComponentStatePasses(b: Body) {
    !b.HasType("ComponentStateChanged") || b.state.None? || b.state.value !in TRANSIENT_COMPONENT_STATES
  }

  predicate ShouldForwardOrderEvent(b: Body) {
    !b.TypeIn(TRANSIENT_ORDER_EVENTS)
  }

  predicate ShouldForwardEventType(b: Body) {
    !b.TypeIn(SILENCED_EVENT_TYPES)
  }
}
