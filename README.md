# RAN simulator core, in Dafny

This project models five pieces of the RAN simulator, an E2 node that
serves a RIC controller over O-RAN E2AP:

- **Identifier packing** (`types.dfy`, module `Model`). These shift-and-mask
  functions build and split ECI, ECGI and GEnbID values. The layout is the
  28-bit ECI of 3GPP TS 23.003 section 19.6: a 20-bit eNB id above an 8-bit
  cell id. The PLMN id is stored as a plain integer above bit 28. Go's `uint`
  is taken as 64 bits, and the ids are bit-vectors with the truncations the
  Go conversions make.
- **UE registry** (`ues.dfy`, module `UEs`). The class `UERegistry` holds a
  `map<IMSI, UE>` and a list of watchers.
  - Each watcher channel is a `Sink`: an append-only event log with a closed
    flag.
  - Random choices are inputs, one `Draw` per UE created: the IMSI, the IMSI
    re-drawn after a collision, the cell and the strength.
  - The registry retries a colliding IMSI only once. The model keeps that
    behaviour, so a second collision replaces an existing UE
    (`DoubleCollisionOverwrites`).
- **RIC INDICATION assembly** (`indication.dfy`, module `Indication`). This
  covers the `Indication` struct and the With* options that `NewIndication`
  applies in order. It also covers the mapping of the struct onto the
  information elements of the RIC INDICATION message (O-RAN.WG3.E2AP section
  9.1.1.7).
- **KPM service model** (`kpm.dfy`, module `Kpm`). This covers action
  admission for RIC SUBSCRIPTION, RIC SUBSCRIPTION DELETE over the
  subscription store's tickers, and the unsupported control and
  connection-update requests. The ASN.1 builders are modelled as message
  values, and whether each builder fails is an input (`BuildFaults`).
- **Agent dispatch** (`agent.dfy`, module `E2Agent`). Requests are routed by
  RAN function id over an abstract service-model registry. The agent's
  `Stop` is also modelled.

`errors.dfy` (module `Errors`) holds the Go conventions shared by the
modules:

- `Option` and `Result`.
- The error kinds of the ONOS error library.
- Byte slices that may be nil.
- `int32`.
- The `(response, failure, err)` triple of an E2AP handler (`Reply`).

## Model

| member | source | states |
|---|---|---|
| Model.ToECI | pkg/model/types.go:57-60 | the low byte of the ECI is the cell id and the bits above it are the low 24 bits of the eNB id (the 32-bit conversion drops the rest) |
| Model.ToECGI | pkg/model/types.go:62-65 | the PLMN id sits above bit 28 and the low 28 bits are the ECI masked by mask28 |
| Model.ToGEnbID | pkg/model/types.go:67-70 | the PLMN id sits above bit 28 and the low 28 bits are the 20-bit eNB id shifted left by 8, with the cell byte clear |
| Model.GetPlmnID | pkg/model/types.go:72-75 | the PLMN id is bits 28-59 of the id (cut to 32 bits) |
| Model.GetCellID | pkg/model/types.go:77-80 | the cell id is the low byte |
| Model.GetEnbID | pkg/model/types.go:82-85 | the eNB id is the 20 bits above the cell byte |
| Model.GetECI | pkg/model/types.go:87-90 | the ECI is the low 28 bits |
| Model.ECIRoundTrip | pkg/model/types.go:57-85 | the cell id is recovered from an ECI, and so is the eNB id modulo 2^20 |
| Model.ECIInjective | pkg/model/types.go:57-60 | two ECIs are equal iff their cell ids match and their eNB ids agree in the low 24 bits |
| Model.ECGIRoundTrip | pkg/model/types.go:62-90 | the PLMN id is recovered from an ECGI, the ECI is recovered masked to 28 bits, and an ECI below 2^28 is recovered exactly |
| Model.ECGIDecomposes | pkg/model/types.go:62-90 | rebuilding an ECGI from its PLMN id and ECI gives it back iff it is below 2^60 |
| Model.ECGIOfECI | pkg/model/types.go:57-85 | the ECGI of an ECI gives back its cell id, its eNB id modulo 2^20 and its PLMN id |
| Model.GEnbIDRoundTrip | pkg/model/types.go:67-85 | a GEnbID gives back its PLMN id and its eNB id modulo 2^20, and its cell id is 0 |
| Model.GEnbIDDecomposes | pkg/model/types.go:67-85 | rebuilding a GEnbID from its parts gives it back iff it is below 2^60 and its low byte is 0 |
| Model.GEnbIDOfECGI | pkg/model/types.go:57-70 | a GEnbID is the ECGI of any of its cells with the cell byte cleared |
| UEs.CreatedSize | pkg/store/ues/ues.go:125-152 | creation keeps every existing IMSI and grows the map by at most one UE per draw; it grows by exactly one per draw iff no draw overwrites an IMSI in use |
| UEs.CreatedEntries | pkg/store/ues/ues.go:128-150 | every UE that creation adds or replaces is an unadmitted "phone" stored under its own IMSI, built from draw j of the batch with the CRNTI of position j |
| UEs.CreatedInBand | pkg/store/ues/ues.go:129-133 | after creation every key is the IMSI of its UE and lies in [1000000, 9999999) |
| UEs.DistinctDrawsNoOverwrite | pkg/store/ues/ues.go:129-133 | a batch whose first IMSIs are unused and pairwise distinct overwrites nothing |
| UEs.DoubleCollisionOverwrites | pkg/store/ues/ues.go:130-150 | when both IMSIs of a draw are taken, the UE holding the retry IMSI is replaced and the registry does not grow |
| UEs.DecodeWatchOptions | pkg/store/ues/ues.go:225-226 | no options means monitor without replay; otherwise only the first options value counts |
| UEs.ReplayEvents | pkg/store/ues/ues.go:238-240 | one NONE event per listed UE, in list order |
| UEs.Sink.Send | pkg/store/ues/ues.go:76 | a send appends the event to the channel's log and leaves it open |
| UEs.Sink.Close | pkg/store/ues/ues.go:242 | closing an open channel keeps the log and marks it closed |
| UEs.UERegistry.constructor | pkg/store/ues/ues.go:89-99 | a new registry has no watchers and holds the UEs created from the draws |
| UEs.UERegistry.Notify | pkg/store/ues/ues.go:70-78 | every watcher receives the event once for each time it is on the list, and nothing else changes |
| UEs.UERegistry.GetUECount | pkg/store/ues/ues.go:110-112 | the count is the number of UEs held |
| UEs.UERegistry.CreateUEs | pkg/store/ues/ues.go:125-152 | the map becomes the creation of the draws over the old map, and every key stays valid and in the band |
| UEs.UERegistry.GetUE | pkg/store/ues/ues.go:154-162 | a held IMSI yields its UE, and a missing one yields NotFound |
| UEs.UERegistry.DestroyUE | pkg/store/ues/ues.go:164-173 | a held IMSI is removed and returned, and each watcher gets one DELETED event per registration; a missing IMSI yields NotFound and changes nothing |
| UEs.UERegistry.MoveUE | pkg/store/ues/ues.go:185-195 | only the UE's serving ECGI and strength change, and each watcher gets an UPDATED event; a missing IMSI yields NotFound and changes nothing |
| UEs.UERegistry.ListAllUEs | pkg/store/ues/ues.go:175-183 | every held UE appears exactly once, and the length equals GetUECount |
| UEs.UERegistry.ListUEs | pkg/store/ues/ues.go:197-207 | exactly the UEs served by the ECGI appear, each once |
| UEs.UERegistry.RemoveSomeUEs | pkg/store/ues/ues.go:114-123 | min(count, size) distinct held UEs are destroyed, the rest are untouched, and each watcher receives their DELETED events in removal order |
| UEs.UERegistry.SetUECount | pkg/store/ues/ues.go:101-108 | shrinking leaves exactly `count` UEs; growing creates the missing ones, and the result has `count` UEs iff no draw overwrites; a `count` more than 2^63 above the size wraps the difference and empties the registry; growing sends no event, while shrinking keeps the survivors' values and gives every watcher the DELETED events of the removed UEs, in removal order |
| UEs.UERegistry.WatchUEs | pkg/store/ues/ues.go:223-247 | only monitoring adds the sink to the watchers; replay sends one NONE event per held UE, each once, and closes the sink, which must still be open, when not monitoring |
| UEs.Replay | pkg/store/ues/ues.go:238-240 | the sink receives the replay events of the list, in order |
| UEs.Int64 | pkg/store/ues/ues.go:102 | Go's int conversion wraps into [-2^63, 2^63), congruent modulo 2^64 |
| UEs.DeltaCases | pkg/store/ues/ues.go:101-106 | the signed difference is `size - count` unless `count` exceeds the size by more than 2^63, in which case it is positive and larger than the size |
| UEs.BandBoundsSize | pkg/store/ues/ues.go:17-20 | a registry whose IMSIs lie in the band holds fewer than 2^63 UEs, so `len(r.ues)` never wraps |
| Indication.Set | pkg/utils/indication/indication.go:37-69 | each option sets exactly its own field to its value and leaves every other field unchanged |
| Indication.LastSetterWins | pkg/utils/indication/indication.go:25-30 | after applying options in order, the last option naming a field decides it |
| Indication.UnsetFieldIsZero | pkg/utils/indication/indication.go:25-30 | a field that no option names keeps its zero value |
| Indication.NoCallProcessID | pkg/utils/indication/indication.go:15-69 | the call-process id has no setter and stays nil |
| Indication.Indication.constructor | pkg/utils/indication/indication.go:26 | a new indication has every field at its zero value |
| Indication.Indication.Apply | pkg/utils/indication/indication.go:28-69 | running one option updates the struct as that option prescribes |
| Indication.NewIndication | pkg/utils/indication/indication.go:25-34 | a fresh indication holds the options applied in order, and the error is nil |
| Indication.CreateIndication | pkg/utils/indication/indication.go:72-143 | the message has the eight IEs with their ids, criticality REJECT, OPTIONAL presence for the sequence number and call-process id and MANDATORY for the rest, action id 2, sequence number 3 and type REPORT; it carries the indication's ids and bytes unchanged |
| Indication.CreateReadIndication | pkg/utils/indication/indication.go:72-143 | every message of that shape is the one built from the fields it carries |
| Indication.CreateIndicationInjective | pkg/utils/indication/indication.go:78-136 | two indications build the same message iff their fields agree |
| Indication.BuiltMessage | pkg/utils/indication/indication.go:25-136 | a message built from options carries each field as the options left it and a nil call-process id |
| Kpm.ReportIDsExactly | pkg/servicemodel/kpm/kpm.go:224-231 | an action id is accepted iff some REPORT action carries it |
| Kpm.ReportIDsInOrder | pkg/servicemodel/kpm/kpm.go:224-231 | accepted ids are appended in request order: those from a prefix of the request come first |
| Kpm.NotAdmittedExactly | pkg/servicemodel/kpm/kpm.go:224-243 | an id is not admitted iff some INSERT or POLICY action carries it, and its cause is ACTION_NOT_SUPPORTED |
| Kpm.UnrecognizedIgnored | pkg/servicemodel/kpm/kpm.go:224-243 | an id carried only by actions of another type is neither accepted nor not admitted |
| Kpm.ClassifyActions | pkg/servicemodel/kpm/kpm.go:224-244 | the loop yields exactly the accepted ids and the not-admitted map |
| Kpm.RICSubscription | pkg/servicemodel/kpm/kpm.go:206-306 | id extraction errors come back alone; with no REPORT action the reply is a failure with cause ACTION_NOT_SUPPORTED, or the builder's error; an unreadable report period gives no response and no error, and a failure with cause UNSPECIFIED exactly when its builder succeeds; otherwise a response-builder error comes back alone, and the response carries exactly the accepted ids and not-admitted map |
| Kpm.RICControl | pkg/servicemodel/kpm/kpm.go:200-203 | always a NotSupported error with no response and no failure |
| Kpm.E2ConnectionUpdate | pkg/servicemodel/kpm/kpm.go:195-198 | always a NotSupported error with no response and no failure |
| Kpm.Ticker.Stop | pkg/servicemodel/kpm/kpm.go:337 | the ticker is stopped |
| Kpm.Client.RICSubscriptionDelete | pkg/servicemodel/kpm/kpm.go:309-339 | extraction errors come back alone; a missing key gives NotFound; a present key gives the delete response and stops exactly that subscription's ticker, or, when the response builder fails, its error alone with no ticker stopped; the store is unchanged and no failure is ever returned |
| E2Agent.Route | pkg/e2agent/agent.go:55-102 | the KPM id goes to the KPM handler, whose reply is returned as is; a lookup error is returned as is; any other id gives NotSupported |
| E2Agent.KpmForwarded | pkg/e2agent/agent.go:55-97 | with a successful lookup the three requests return exactly what the KPM handlers return |
| E2Agent.LookupErrorReturned | pkg/e2agent/agent.go:55-97 | a lookup error is the reply's error, with no handler called |
| E2Agent.OtherIDsNotSupported | pkg/e2agent/agent.go:55-102 | any other id gives NotSupported whatever the registry holds |
| E2Agent.ControlNeverSupported | pkg/e2agent/agent.go:55-69 | with the KPM model registered, every control request ends NotSupported |
| E2Agent.Channel.Close | pkg/e2agent/agent.go:138 | closing marks the channel closed and returns the transport's result |
| E2Agent.Agent.constructor | pkg/e2agent/agent.go:40-44 | a new agent holds no channel |
| E2Agent.Agent.Stop | pkg/e2agent/agent.go:136-141 | without a channel Stop returns nil and changes nothing; with one it closes it and returns the close result |

## Left out

- Locking and goroutines. The registry is modelled sequentially: its
  read/write lock, the WatchUEs goroutine and the blocking channel sends in
  `notify` are left out. A sink is an unbounded log.
- Sends to a closed sink. Go panics on them; the model appends anyway.
  Closing a closed sink also panics in Go; there the model instead requires
  the sink to be open (`Sink.Close`, and `WatchUEs` when it replays without
  monitoring).
- The types `IMSI`, `ECGI`, `CRNTI` and `GEnbID` that ues.go takes from the
  simulator's api package are not part of this model. They are assumed to
  have the widths `types.dfy` gives them.
- Interleaving of events across watchers. Each watcher's own log is exact,
  but the order between watchers is not recorded.
- UE pointer aliasing. Go stores `*model.UE`, so events and lists share the
  UE that MoveUE later changes in place. The model's events and lists carry
  copies taken at the moment of the call.
- UE location, rotation and `Cells`. These are float or always-nil fields.
  The strength is a float64 kept as an uninterpreted bit pattern.
- `GetRandomCell`. The serving cell comes from the draw, so the cell store is
  not modelled, including what happens when it is empty.
- ADDED events. ues.go declares the ADDED event type, but no code path sends
  it: CreateUEs notifies nobody, and the model does the same.
- Subscription insert and removal. RICSubscription never inserts into the
  subscription store, and RICSubscriptionDelete never removes from it; the
  model does the same.
- The subscription store's entries are reduced to their tickers.
  - Its `Get` error is modelled as NotFound; the store package is not part of
    this model.
  - A stored subscription with a nil ticker would panic at
    `sub.Ticker.Stop()`. That case is not modelled.
- The subutils and subdeleteutils builders and getters, and
  `getReportPeriod`. Each extractor is modelled only as succeeding with a
  value or failing with an error, and each builder as succeeding or failing.
  A builder that fails is taken to return a nil message. Because of that, an
  unreadable report period combined with a failing failure-builder gives a
  reply that is all nil.
- The report loop. `reportIndication`, the goroutine that RICSubscription
  starts and the indications it sends are concurrency, timers and transport.
- `NewServiceModel` capability encoding. It is ASN.1 and protobuf calls into
  foreign code.
- Agent `Start`, `NewE2Agent` registration, and the service-model registry
  itself.
  - The KPM id and the lookup are inputs, and the registry package is not
    part of this model.
  - agent.go reads the RAN function IE directly; the model takes that value
    as a parameter.
  - agent.go refers to a KPM `ServiceModel` type and an older E2AP API
    version than kpm.go, whose handler type is `Client`. The model connects
    them only through the handlers' reply types.
- Error messages. Only the error kind is kept.
- Side effects of handlers reached through the agent. The agent's dispatch
  treats each handler as a function of its request, so the ticker a routed
  delete stops is stated only by `Kpm.Client.RICSubscriptionDelete`.
