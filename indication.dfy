// RIC INDICATION assembly: the functional-options builder of an indication
// and its mapping onto the information elements of the RIC INDICATION
// message of O-RAN E2AP (O-RAN.WG3.E2AP, section 9.1.1.7).

module Indication {
  import opened Errors

  // ---------------------------------------------------------------------
  // The indication's fields, as a value

  /** What an indication holds; the call-process id has no setter. */
  datatype Fields = Fields(
    reqID: int32,
    ricInstanceID: int32,
    ranFuncID: int32,
    header: ByteSlice,
    message: ByteSlice,
    callProcessID: ByteSlice)

  /** Go's zero value of the struct: zero ids and nil byte slices. */
  const Zero := Fields(0, 0, 0, Nil, Nil, Nil)

  /** The five With* options. */
  datatype Setter =
    | WithRequestID(reqID: int32)
    | WithRanFuncID(ranFuncID: int32)
    | WithRicInstanceID(ricInstanceID: int32)
    | WithIndicationHeader(header: ByteSlice)
    | WithIndicationMessage(message: ByteSlice)

  /** The fields an option can set. */
  datatype Field = RequestID | RanFuncID | RicInstanceID | Header | Message

  /** The content of one field. */
  datatype Value = Int(i: int32) | Slice(b: ByteSlice)

  function Get(f: Fields, k: Field): Value {
    match k
    case RequestID => Int(f.reqID)
    case RanFuncID => Int(f.ranFuncID)
    case RicInstanceID => Int(f.ricInstanceID)
    case Header => Slice(f.header)
    case Message => Slice(f.message)
  }

  function FieldOf(s: Setter): Field {
    match s
    case WithRequestID(_) => RequestID
    case WithRanFuncID(_) => RanFuncID
    case WithRicInstanceID(_) => RicInstanceID
    case WithIndicationHeader(_) => Header
    case WithIndicationMessage(_) => Message
  }

  function ValueOf(s: Setter): Value {
    match s
    case WithRequestID(x) => Int(x)
    case WithRanFuncID(x) => Int(x)
    case WithRicInstanceID(x) => Int(x)
    case WithIndicationHeader(b) => Slice(b)
    case WithIndicationMessage(b) => Slice(b)
  }

  /** Applying one option: its field takes the option's value and every other field is kept. */
  function Set(f: Fields, s: Setter): (r: Fields)
    ensures Get(r, FieldOf(s)) == ValueOf(s)
    ensures forall k :: k != FieldOf(s) ==> Get(r, k) == Get(f, k)
    ensures r.callProcessID == f.callProcessID
  {
    match s
    case WithRequestID(x) => f.(reqID := x)
    case WithRanFuncID(x) => f.(ranFuncID := x)
    case WithRicInstanceID(x) => f.(ricInstanceID := x)
    case WithIndicationHeader(b) => f.(header := b)
    case WithIndicationMessage(b) => f.(message := b)
  }

  /** The fields after applying `setters`, in order, to the zero indication. */
  function Built(setters: seq<Setter>): Fields {
    if setters == [] then Zero else Set(Built(setters[..|setters| - 1]), setters[|setters| - 1])
  }

  /** The last option naming a field decides that field. */
  lemma {:induction false} LastSetterWins(setters: seq<Setter>, j: nat)
    requires j < |setters|
    requires forall l :: j < l < |setters| ==> FieldOf(setters[l]) != FieldOf(setters[j])
    ensures Get(Built(setters), FieldOf(setters[j])) == ValueOf(setters[j])
  {
    var n := |setters| - 1;
    if j < n {
      var prefix := setters[..n];
      assert prefix[j] == setters[j];
      LastSetterWins(prefix, j);
      assert FieldOf(setters[n]) != FieldOf(setters[j]);
    }
  }

  /** A field that no option names keeps its zero value. */
  lemma {:induction false} UnsetFieldIsZero(setters: seq<Setter>, k: Field)
    requires forall l :: 0 <= l < |setters| ==> FieldOf(setters[l]) != k
    ensures Get(Built(setters), k) == Get(Zero, k)
  {
    if setters != [] {
      var n := |setters| - 1;
      var prefix := setters[..n];
      assert forall l :: 0 <= l < |prefix| ==> prefix[l] == setters[l];
      UnsetFieldIsZero(prefix, k);
      assert FieldOf(setters[n]) != k;
    }
  }

  /** No option sets the call-process id, so it stays nil. */
  lemma {:induction false} NoCallProcessID(setters: seq<Setter>)
    ensures Built(setters).callProcessID == Nil
  {
    if setters != [] {
      NoCallProcessID(setters[..|setters| - 1]);
    }
  }

  // ---------------------------------------------------------------------
  // The builder

  /** The Go struct the options write into. */
  class Indication {
    var reqID: int32
    var ricInstanceID: int32
    var ranFuncID: int32
    var indicationHeader: ByteSlice
    var indicationMessage: ByteSlice
    var ricCallProcessID: ByteSlice

    /** `&Indication{}`: every field at its zero value. */
    constructor ()
      ensures Value() == Zero
    {
      reqID := 0;
      ricInstanceID := 0;
      ranFuncID := 0;
      indicationHeader := Nil;
      indicationMessage := Nil;
      ricCallProcessID := Nil;
    }

    function Value(): Fields
      reads this
    {
      Fields(reqID, ricInstanceID, ranFuncID, indicationHeader, indicationMessage, ricCallProcessID)
    }

    /** Runs one option closure on this indication. */
    method Apply(s: Setter)
      modifies this
      ensures Value() == Set(old(Value()), s)
    {
      match s
      case WithRequestID(x) => reqID := x;
      case WithRanFuncID(x) => ranFuncID := x;
      case WithRicInstanceID(x) => ricInstanceID := x;
      case WithIndicationHeader(b) => indicationHeader := b;
      case WithIndicationMessage(b) => indicationMessage := b;
    }
  }

  /** Applies the options in order to a fresh zero indication; the error is always nil. */
  method NewIndication(setters: seq<Setter>) returns (ind: Indication, err: Option<Error>)
    ensures fresh(ind) && ind.Value() == Built(setters)
    ensures err == None
  {
    ind := new Indication();
    var i := 0;
    while i < |setters|
      invariant 0 <= i <= |setters|
      invariant ind.Value() == Built(setters[..i])
    {
      assert setters[..i + 1][..i] == setters[..i];
      ind.Apply(setters[i]);
      i := i + 1;
    }
    assert setters[..i] == setters;
    err := None;
  }

  // ---------------------------------------------------------------------
  // The RIC INDICATION message

  /** Protocol IE ids of O-RAN E2AP. */
  const IdRanFunctionID: int32 := 5
  const IdRicActionID: int32 := 15
  const IdRicCallProcessID: int32 := 20
  const IdRicIndicationHeader: int32 := 25
  const IdRicIndicationMessage: int32 := 26
  const IdRicIndicationSN: int32 := 27
  const IdRicIndicationType: int32 := 28
  const IdRicRequestID: int32 := 29

  /** The action id and sequence number every indication carries. */
  const FixedActionID: int32 := 2
  const FixedIndicationSN: int32 := 3

  datatype Criticality = Reject | Ignore | Notify
  datatype Presence = Optional | Conditional | Mandatory
  datatype IndicationType = Report | Insert

  /** One protocol information element. */
  datatype IE<T> = IE(id: int32, criticality: Criticality, value: T, presence: Presence)

  datatype RicRequestID = RicRequestID(ricRequestorID: int32, ricInstanceID: int32)

  /** The protocol IEs of a RIC INDICATION, one per IE id. */
  datatype RicIndication = RicIndication(
    ies29: IE<RicRequestID>,
    ies5: IE<int32>,
    ies15: IE<int32>,
    ies27: IE<int32>,
    ies28: IE<IndicationType>,
    ies25: IE<ByteSlice>,
    ies26: IE<ByteSlice>,
    ies20: IE<ByteSlice>)

  /** The shape every built indication has: its ids, REJECT everywhere, the fixed values and the presences. */
  predicate WellFormed(m: RicIndication) {
    && m.ies29.id == IdRicRequestID && m.ies29.criticality == Reject && m.ies29.presence == Mandatory
    && m.ies5.id == IdRanFunctionID && m.ies5.criticality == Reject && m.ies5.presence == Mandatory
    && m.ies15 == IE(IdRicActionID, Reject, FixedActionID, Mandatory)
    && m.ies27 == IE(IdRicIndicationSN, Reject, FixedIndicationSN, Optional)
    && m.ies28 == IE(IdRicIndicationType, Reject, Report, Mandatory)
    && m.ies25.id == IdRicIndicationHeader && m.ies25.criticality == Reject && m.ies25.presence == Mandatory
    && m.ies26.id == IdRicIndicationMessage && m.ies26.criticality == Reject && m.ies26.presence == Mandatory
    && m.ies20.id == IdRicCallProcessID && m.ies20.criticality == Reject && m.ies20.presence == Optional
  }

  /** The indication fields a message carries. */
  function ReadIndication(m: RicIndication): Fields {
    Fields(m.ies29.value.ricRequestorID, m.ies29.value.ricInstanceID, m.ies5.value,
           m.ies25.value, m.ies26.value, m.ies20.value)
  }

  /** Builds the message: always well formed, and carrying the indication's fields unchanged. */
  function CreateIndication(f: Fields): (r: RicIndication)
    ensures WellFormed(r)
    ensures ReadIndication(r) == f
  {
    RicIndication(
      IE(IdRicRequestID, Reject, RicRequestID(f.reqID, f.ricInstanceID), Mandatory),
      IE(IdRanFunctionID, Reject, f.ranFuncID, Mandatory),
      IE(IdRicActionID, Reject, FixedActionID, Mandatory),
      IE(IdRicIndicationSN, Reject, FixedIndicationSN, Optional),
      IE(IdRicIndicationType, Reject, Report, Mandatory),
      IE(IdRicIndicationHeader, Reject, f.header, Mandatory),
      IE(IdRicIndicationMessage, Reject, f.message, Mandatory),
      IE(IdRicCallProcessID, Reject, f.callProcessID, Optional))
  }

  /** Every well-formed message is the one built from the fields it carries. */
  lemma CreateReadIndication(m: RicIndication)
    requires WellFormed(m)
    ensures CreateIndication(ReadIndication(m)) == m
  {
  }

  /** Two indications build the same message only when their fields agree. */
  lemma CreateIndicationInjective(f: Fields, g: Fields)
    ensures CreateIndication(f) == CreateIndication(g) <==> f == g
  {
    if CreateIndication(f) == CreateIndication(g) {
      assert ReadIndication(CreateIndication(f)) == ReadIndication(CreateIndication(g));
    }
  }

  /** A message built from options: the last option per field decides it, and the call-process id is nil. */
  lemma BuiltMessage(setters: seq<Setter>, k: Field)
    ensures Get(ReadIndication(CreateIndication(Built(setters))), k) == Get(Built(setters), k)
    ensures CreateIndication(Built(setters)).ies20.value == Nil
  {
    NoCallProcessID(setters);
  }
}
