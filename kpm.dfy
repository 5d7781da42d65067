// The KPM service model's E2AP handlers: subscription admission, subscription
// delete, and the control and connection-update requests it does not support.

module Kpm {
  import opened Errors

  // ---------------------------------------------------------------------
  // Requests

  type ActionID = int32

  /** The RIC action types of E2AP; a protobuf enum may also carry a value outside them. */
  datatype ActionType = Report | Insert | Policy | Unrecognized(code: int32)

  /** One entry of the RIC-actions-to-be-setup list. */
  datatype Action = Action(id: ActionID, actionType: ActionType)

  /** The RIC-request causes this service model reports. */
  datatype Cause = ActionNotSupported | Unspecified

  /**
   * A RIC SUBSCRIPTION REQUEST as the handler reads it: each id is the outcome
   * of its extractor, and the report period the outcome of reading the event
   * trigger.
   */
  datatype SubscriptionRequest = SubscriptionRequest(
    requesterID: Result<int32>,
    ranFunctionID: Result<int32>,
    ricInstanceID: Result<int32>,
    actions: seq<Action>,
    reportPeriod: Result<nat>)

  /** A RIC SUBSCRIPTION DELETE REQUEST, its ids as extractor outcomes. */
  datatype DeleteRequest = DeleteRequest(
    requesterID: Result<int32>,
    ranFunctionID: Result<int32>,
    ricInstanceID: Result<int32>)

  datatype ControlRequest = ControlRequest
  datatype ConnectionUpdate = ConnectionUpdate

  // ---------------------------------------------------------------------
  // Replies

  /** What the subscription builder is given: ids, then accepted and not-admitted actions or a cause. */
  datatype Subscription = Subscription(
    requestID: int32,
    ranFuncID: int32,
    ricInstanceID: int32,
    accepted: seq<ActionID>,
    notAdmitted: map<ActionID, Cause>,
    cause: Option<Cause>)

  datatype SubscriptionResponse = SubscriptionResponse(sub: Subscription)
  datatype SubscriptionFailure = SubscriptionFailure(sub: Subscription)
  datatype DeleteResponse = DeleteResponse(requestID: int32, ranFuncID: int32, ricInstanceID: int32)
  datatype DeleteFailure = DeleteFailure
  datatype ControlAcknowledge = ControlAcknowledge
  datatype ControlFailure = ControlFailure
  datatype ConnectionUpdateAcknowledge = ConnectionUpdateAcknowledge
  datatype ConnectionUpdateFailure = ConnectionUpdateFailure

  /** Whether each ASN.1 message builder fails, and with which error. */
  datatype BuildFaults = BuildFaults(response: Option<Error>, failure: Option<Error>, deleteResponse: Option<Error>)

  // ---------------------------------------------------------------------
  // Action admission

  predicate Refused(t: ActionType) {
    t == Insert || t == Policy
  }

  /** The ids of the REPORT actions, in request order. */
  function ReportIDs(actions: seq<Action>): seq<ActionID> {
    if actions == [] then []
    else
      var last := actions[|actions| - 1];
      ReportIDs(actions[..|actions| - 1]) + (if last.actionType == Report then [last.id] else [])
  }

  /** The INSERT and POLICY action ids, each mapped to ACTION_NOT_SUPPORTED. */
  function NotAdmitted(actions: seq<Action>): map<ActionID, Cause> {
    if actions == [] then map[]
    else
      var last := actions[|actions| - 1];
      var m := NotAdmitted(actions[..|actions| - 1]);
      if Refused(last.actionType) then m[last.id := ActionNotSupported] else m
  }

  /** An id is accepted exactly when some REPORT action carries it. */
  lemma {:induction false} ReportIDsExactly(actions: seq<Action>, x: ActionID)
    ensures x in ReportIDs(actions) <==> exists j :: 0 <= j < |actions| && actions[j] == Action(x, Report)
  {
    if actions != [] {
      var n := |actions| - 1;
      var prefix := actions[..n];
      ReportIDsExactly(prefix, x);
      if x in ReportIDs(prefix) {
        var j :| 0 <= j < |prefix| && prefix[j] == Action(x, Report);
        assert actions[j] == prefix[j];
      }
      if exists j :: 0 <= j < |actions| && actions[j] == Action(x, Report) {
        var j :| 0 <= j < |actions| && actions[j] == Action(x, Report);
        if j < n {
          assert prefix[j] == actions[j];
        }
      }
    }
  }

  /** Accepted ids keep request order: the ids accepted from a prefix of the request come first. */
  lemma {:induction false} ReportIDsInOrder(actions: seq<Action>, k: nat)
    requires k <= |actions|
    ensures ReportIDs(actions[..k]) <= ReportIDs(actions)
    decreases |actions|
  {
    if k < |actions| {
      var n := |actions| - 1;
      assert actions[..n][..k] == actions[..k];
      ReportIDsInOrder(actions[..n], k);
    } else {
      assert actions[..k] == actions;
    }
  }

  /** An id is not admitted exactly when some INSERT or POLICY action carries it, always with cause ACTION_NOT_SUPPORTED. */
  lemma {:induction false} NotAdmittedExactly(actions: seq<Action>, x: ActionID)
    ensures x in NotAdmitted(actions) <==> exists j :: 0 <= j < |actions| && actions[j].id == x && Refused(actions[j].actionType)
    ensures x in NotAdmitted(actions) ==> NotAdmitted(actions)[x] == ActionNotSupported
  {
    if actions != [] {
      var n := |actions| - 1;
      var prefix := actions[..n];
      NotAdmittedExactly(prefix, x);
      if x in NotAdmitted(prefix) {
        var j :| 0 <= j < |prefix| && prefix[j].id == x && Refused(prefix[j].actionType);
        assert actions[j] == prefix[j];
      }
      if exists j :: 0 <= j < |actions| && actions[j].id == x && Refused(actions[j].actionType) {
        var j :| 0 <= j < |actions| && actions[j].id == x && Refused(actions[j].actionType);
        if j < n {
          assert prefix[j] == actions[j];
        }
      }
    }
  }

  /** An id that only actions of some other type carry is neither accepted nor refused. */
  lemma UnrecognizedIgnored(actions: seq<Action>, x: ActionID)
    requires forall j :: 0 <= j < |actions| && actions[j].id == x ==> actions[j].actionType.Unrecognized?
    ensures x !in ReportIDs(actions) && x !in NotAdmitted(actions)
  {
    ReportIDsExactly(actions, x);
    NotAdmittedExactly(actions, x);
  }

  /** The handler's loop over the requested actions. */
  method ClassifyActions(actions: seq<Action>) returns (accepted: seq<ActionID>, notAdmitted: map<ActionID, Cause>)
    ensures accepted == ReportIDs(actions)
    ensures notAdmitted == NotAdmitted(actions)
  {
    accepted := [];
    notAdmitted := map[];
    var i := 0;
    while i < |actions|
      invariant 0 <= i <= |actions|
      invariant accepted == ReportIDs(actions[..i])
      invariant notAdmitted == NotAdmitted(actions[..i])
    {
      assert actions[..i + 1][..i] == actions[..i];
      var action := actions[i];
      if action.actionType == Report {
        accepted := accepted + [action.id];
      }
      if action.actionType == Insert || action.actionType == Policy {
        notAdmitted := notAdmitted[action.id := ActionNotSupported];
      }
      i := i + 1;
    }
    assert actions[..i] == actions;
  }

  // ---------------------------------------------------------------------
  // Handlers

  /** The three ids could all be read. */
  predicate Extracted(request: SubscriptionRequest) {
    request.requesterID.Ok? && request.ranFunctionID.Ok? && request.ricInstanceID.Ok?
  }

  /** The subscription built for a failure with `cause`: ids only, no actions. */
  function FailedSubscription(request: SubscriptionRequest, cause: Cause): Subscription
    requires Extracted(request)
  {
    Subscription(request.requesterID.value, request.ranFunctionID.value, request.ricInstanceID.value,
                 [], map[], Some(cause))
  }

  /**
   * Admits a subscription. The report-period branch returns whatever the
   * failure builder produced, which is nil when it fails, and no error.
   */
  method RICSubscription(request: SubscriptionRequest, faults: BuildFaults)
    returns (r: Reply<SubscriptionResponse, SubscriptionFailure>)
    ensures request.requesterID.Err? ==> r == ErrorReply(request.requesterID.error)
    ensures request.requesterID.Ok? && request.ranFunctionID.Err? ==> r == ErrorReply(request.ranFunctionID.error)
    ensures request.requesterID.Ok? && request.ranFunctionID.Ok? && request.ricInstanceID.Err? ==>
      r == ErrorReply(request.ricInstanceID.error)
    ensures r.response.Some? <==>
      Extracted(request) && (exists j :: 0 <= j < |request.actions| && request.actions[j].actionType == Report)
      && request.reportPeriod.Ok? && faults.response.None?
    ensures r.response.Some? ==>
      r.failure.None? && r.err.None? &&
      r.response.value.sub == Subscription(request.requesterID.value, request.ranFunctionID.value,
        request.ricInstanceID.value, ReportIDs(request.actions), NotAdmitted(request.actions), None)
    ensures r.failure.Some? ==>
      r.response.None? && r.err.None? &&
      r.failure.value.sub == FailedSubscription(request,
        if ReportIDs(request.actions) == [] then ActionNotSupported else Unspecified)
    ensures Extracted(request) && ReportIDs(request.actions) != [] && request.reportPeriod.Err? ==>
      r.err.None? && r.response.None? && (r.failure.Some? <==> faults.failure.None?)
    ensures Extracted(request) && ReportIDs(request.actions) != [] && request.reportPeriod.Ok? && faults.response.Some? ==>
      r == ErrorReply(faults.response.value)
    ensures Extracted(request) && ReportIDs(request.actions) == [] ==>
      r.err == faults.failure && r.response.None? && (r.failure.Some? <==> faults.failure.None?)
  {
    if request.requesterID.Err? {
      return ErrorReply(request.requesterID.error);
    }
    if request.ranFunctionID.Err? {
      return ErrorReply(request.ranFunctionID.error);
    }
    if request.ricInstanceID.Err? {
      return ErrorReply(request.ricInstanceID.error);
    }
    var accepted, notAdmitted := ClassifyActions(request.actions);
    if |accepted| == 0 {
      ReportIDsNone(request.actions);
      if faults.failure.Some? {
        return ErrorReply(faults.failure.value);
      }
      return Reply(None, Some(SubscriptionFailure(FailedSubscription(request, ActionNotSupported))), None);
    }
    ReportIDsSome(request.actions);
    if request.reportPeriod.Err? {
      var failure := if faults.failure.None? then Some(SubscriptionFailure(FailedSubscription(request, Unspecified))) else None;
      return Reply(None, failure, None);
    }
    var sub := Subscription(request.requesterID.value, request.ranFunctionID.value, request.ricInstanceID.value,
                            accepted, notAdmitted, None);
    if faults.response.Some? {
      return ErrorReply(faults.response.value);
    }
    return Reply(Some(SubscriptionResponse(sub)), None, None);
  }

  /** No id is accepted exactly when no action is a REPORT. */
  lemma ReportIDsNone(actions: seq<Action>)
    requires ReportIDs(actions) == []
    ensures forall j :: 0 <= j < |actions| ==> actions[j].actionType != Report
  {
    forall j | 0 <= j < |actions|
      ensures actions[j].actionType != Report
    {
      ReportIDsExactly(actions, actions[j].id);
    }
  }

  lemma ReportIDsSome(actions: seq<Action>)
    requires ReportIDs(actions) != []
    ensures exists j :: 0 <= j < |actions| && actions[j].actionType == Report
  {
    var x := ReportIDs(actions)[0];
    ReportIDsExactly(actions, x);
  }

  /** Control requests are not supported. */
  function RICControl(request: ControlRequest): (r: Reply<ControlAcknowledge, ControlFailure>)
    ensures r.response.None? && r.failure.None? && r.err == Some(Error(NotSupported))
  {
    ErrorReply(Error(NotSupported))
  }

  /** E2 connection updates are not supported. */
  function E2ConnectionUpdate(request: ConnectionUpdate): (r: Reply<ConnectionUpdateAcknowledge, ConnectionUpdateFailure>)
    ensures r.response.None? && r.failure.None? && r.err == Some(Error(NotSupported))
  {
    ErrorReply(Error(NotSupported))
  }

  // ---------------------------------------------------------------------
  // Subscription delete

  /** The key of the subscription store: instance, requester and RAN function ids. */
  datatype SubID = SubID(ricInstanceID: int32, requesterID: int32, ranFuncID: int32)

  /** The ticker that paces a subscription's indications. */
  class Ticker {
    var stopped: bool

    constructor ()
      ensures !stopped
    {
      stopped := false;
    }

    method Stop()
      modifies this
      ensures stopped
    {
      stopped := true;
    }
  }

  /** The service model's client; its subscription store is reduced to each entry's ticker. */
  class Client {
    var subscriptions: map<SubID, Ticker>

    ghost function Tickers(): set<Ticker>
      reads this
    {
      set id | id in subscriptions :: subscriptions[id]
    }

    /**
     * Looks the subscription up and stops its ticker once the delete response
     * is built; the store itself is not changed.
     */
    method RICSubscriptionDelete(request: DeleteRequest, faults: BuildFaults)
      returns (r: Reply<DeleteResponse, DeleteFailure>)
      modifies Tickers()
      ensures request.requesterID.Err? ==> r == ErrorReply(request.requesterID.error)
      ensures request.requesterID.Ok? && request.ranFunctionID.Err? ==> r == ErrorReply(request.ranFunctionID.error)
      ensures request.requesterID.Ok? && request.ranFunctionID.Ok? && request.ricInstanceID.Err? ==>
        r == ErrorReply(request.ricInstanceID.error)
      ensures r.failure.None?
      ensures r.response.Some? <==>
        && request.requesterID.Ok? && request.ranFunctionID.Ok? && request.ricInstanceID.Ok?
        && Key(request) in subscriptions && faults.deleteResponse.None?
      ensures r.response.Some? ==>
        && r.err.None?
        && r.response.value == DeleteResponse(request.requesterID.value, request.ranFunctionID.value, request.ricInstanceID.value)
        && subscriptions[Key(request)].stopped
        && forall t :: t in Tickers() && t != subscriptions[Key(request)] ==> t.stopped == old(t.stopped)
      ensures r.response.None? ==> forall t :: t in Tickers() ==> t.stopped == old(t.stopped)
      ensures
        && request.requesterID.Ok? && request.ranFunctionID.Ok? && request.ricInstanceID.Ok?
        && Key(request) !in subscriptions
        ==> r == ErrorReply(Error(NotFound))
      ensures
        && request.requesterID.Ok? && request.ranFunctionID.Ok? && request.ricInstanceID.Ok?
        && Key(request) in subscriptions && faults.deleteResponse.Some?
        ==> r == ErrorReply(faults.deleteResponse.value)
    {
      if request.requesterID.Err? {
        return ErrorReply(request.requesterID.error);
      }
      if request.ranFunctionID.Err? {
        return ErrorReply(request.ranFunctionID.error);
      }
      if request.ricInstanceID.Err? {
        return ErrorReply(request.ricInstanceID.error);
      }
      var id := SubID(request.ricInstanceID.value, request.requesterID.value, request.ranFunctionID.value);
      if id !in subscriptions {
        return ErrorReply(Error(NotFound));
      }
      var ticker := subscriptions[id];
      if faults.deleteResponse.Some? {
        return ErrorReply(faults.deleteResponse.value);
      }
      ticker.Stop();
      return Reply(Some(DeleteResponse(request.requesterID.value, request.ranFunctionID.value, request.ricInstanceID.value)), None, None);
    }
  }

  /** The store key a delete request names. */
  function Key(request: DeleteRequest): SubID
    requires request.requesterID.Ok? && request.ranFunctionID.Ok? && request.ricInstanceID.Ok?
  {
    SubID(request.ricInstanceID.value, request.requesterID.value, request.ranFunctionID.value)
  }
}
