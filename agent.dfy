// The E2 agent's request routing: each E2AP request is sent, by its RAN
// function id, to the service model registered under that id.

module E2Agent {
  import opened Errors
  import Kpm

  /** The three handlers of a KPM service model, whose code lies behind the registry. */
  datatype ServiceModel = ServiceModel(
    ricControl: Kpm.ControlRequest -> Reply<Kpm.ControlAcknowledge, Kpm.ControlFailure>,
    ricSubscription: Kpm.SubscriptionRequest -> Reply<Kpm.SubscriptionResponse, Kpm.SubscriptionFailure>,
    ricSubscriptionDelete: Kpm.DeleteRequest -> Reply<Kpm.DeleteResponse, Kpm.DeleteFailure>)

  /**
   * The service-model registry as the agent uses it: the id the KPM model is
   * registered under, and a lookup that yields the model or an error.
   */
  datatype Registry = Registry(kpm: int32, lookup: int32 -> Result<ServiceModel>)

  /** Sends a request to the KPM model's handler `handle`, or reports why it cannot. */
  function Route<Q, R, F>(reg: Registry, ranFuncID: int32, handle: ServiceModel -> Q -> Reply<R, F>, request: Q): (r: Reply<R, F>)
    ensures ranFuncID != reg.kpm ==> r == ErrorReply(Error(NotSupported))
    ensures ranFuncID == reg.kpm && reg.lookup(ranFuncID).Err? ==> r == ErrorReply(reg.lookup(ranFuncID).error)
    ensures ranFuncID == reg.kpm && reg.lookup(ranFuncID).Ok? ==> r == handle(reg.lookup(ranFuncID).value)(request)
  {
    if ranFuncID == reg.kpm then
      match reg.lookup(ranFuncID)
      case Err(e) => ErrorReply(e)
      case Ok(sm) => handle(sm)(request)
    else
      ErrorReply(Error(NotSupported))
  }

  /** RIC CONTROL, routed by the RAN function id the request carries. */
  function RICControl(reg: Registry, ranFuncID: int32, request: Kpm.ControlRequest): Reply<Kpm.ControlAcknowledge, Kpm.ControlFailure> {
    Route(reg, ranFuncID, (sm: ServiceModel) => sm.ricControl, request)
  }

  /** RIC SUBSCRIPTION, routed by the RAN function id the request carries. */
  function RICSubscription(reg: Registry, ranFuncID: int32, request: Kpm.SubscriptionRequest): Reply<Kpm.SubscriptionResponse, Kpm.SubscriptionFailure> {
    Route(reg, ranFuncID, (sm: ServiceModel) => sm.ricSubscription, request)
  }

  /** RIC SUBSCRIPTION DELETE, routed by the RAN function id the request carries. */
  function RICSubscriptionDelete(reg: Registry, ranFuncID: int32, request: Kpm.DeleteRequest): Reply<Kpm.DeleteResponse, Kpm.DeleteFailure> {
    Route(reg, ranFuncID, (sm: ServiceModel) => sm.ricSubscriptionDelete, request)
  }

  /** A KPM request gets exactly the KPM handler's reply once the lookup succeeds, and the lookup's error otherwise. */
  lemma KpmForwarded(reg: Registry, sm: ServiceModel, c: Kpm.ControlRequest, s: Kpm.SubscriptionRequest, d: Kpm.DeleteRequest)
    requires reg.lookup(reg.kpm) == Ok(sm)
    ensures RICControl(reg, reg.kpm, c) == sm.ricControl(c)
    ensures RICSubscription(reg, reg.kpm, s) == sm.ricSubscription(s)
    ensures RICSubscriptionDelete(reg, reg.kpm, d) == sm.ricSubscriptionDelete(d)
  {
  }

  /** A lookup error is returned as it is, before any handler runs. */
  lemma LookupErrorReturned(reg: Registry, c: Kpm.ControlRequest, s: Kpm.SubscriptionRequest, d: Kpm.DeleteRequest)
    requires reg.lookup(reg.kpm).Err?
    ensures RICControl(reg, reg.kpm, c) == ErrorReply(reg.lookup(reg.kpm).error)
    ensures RICSubscription(reg, reg.kpm, s) == ErrorReply(reg.lookup(reg.kpm).error)
    ensures RICSubscriptionDelete(reg, reg.kpm, d) == ErrorReply(reg.lookup(reg.kpm).error)
  {
  }

  /** Any other RAN function id is NotSupported, whatever the registry holds: no handler is consulted. */
  lemma OtherIDsNotSupported(reg: Registry, reg': Registry, id: int32, c: Kpm.ControlRequest, s: Kpm.SubscriptionRequest, d: Kpm.DeleteRequest)
    requires id != reg.kpm && reg'.kpm == reg.kpm
    ensures RICControl(reg, id, c) == RICControl(reg', id, c) == ErrorReply(Error(NotSupported))
    ensures RICSubscription(reg, id, s) == RICSubscription(reg', id, s) == ErrorReply(Error(NotSupported))
    ensures RICSubscriptionDelete(reg, id, d) == RICSubscriptionDelete(reg', id, d) == ErrorReply(Error(NotSupported))
  {
  }

  /** With the KPM model behind the registry, every control request ends NotSupported, by the agent or by the model. */
  lemma ControlNeverSupported(reg: Registry, sm: ServiceModel, id: int32, c: Kpm.ControlRequest)
    requires reg.lookup(reg.kpm) == Ok(sm)
    requires forall q :: sm.ricControl(q) == Kpm.RICControl(q)
    ensures RICControl(reg, id, c) == ErrorReply(Error(NotSupported))
  {
  }

  // ---------------------------------------------------------------------
  // Agent lifecycle

  /** The E2 client channel the agent holds once started. */
  class Channel {
    var closed: bool

    constructor ()
      ensures !closed
    {
      closed := false;
    }

    /** Closes the connection; `outcome` is what the transport reports. */
    method Close(outcome: Option<Error>) returns (err: Option<Error>)
      modifies this
      ensures closed && err == outcome
    {
      closed := true;
      err := outcome;
    }
  }

  class Agent {
    var channel: Channel?

    /** A new agent holds no channel until it is started. */
    constructor ()
      ensures channel == null
    {
      channel := null;
    }

    /** Closes the channel when there is one; without one it returns nil and changes nothing. */
    method Stop(outcome: Option<Error>) returns (err: Option<Error>)
      modifies channel
      ensures channel == old(channel)
      ensures channel == null ==> err == None
      ensures channel != null ==> channel.closed && err == outcome
    {
      if channel != null {
        err := channel.Close(outcome);
        return;
      }
      return None;
    }
  }
}
