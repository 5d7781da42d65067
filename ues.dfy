/**
 * The UE registry: the simulator's inventory of user equipment, keyed by
 * IMSI, with watchers that are told about deletions and moves.
 *
 * The registry is modelled sequentially (its read/write lock is left out).
 * Each watcher's Go channel is a `Sink`: an append-only log of the events
 * sent to it and a closed flag. Random choices (IMSIs, serving cells, signal
 * strengths) are inputs: a `Draw` per UE to create.
 */
module UEs {
  import opened Errors
  import opened Model

  /** Bounds of the IMSI band; `rand.Int63n(MaxIMSI - MinIMSI) + MinIMSI` draws from [MinIMSI, MaxIMSI). */
  const MinIMSI: IMSI := 1000000
  const MaxIMSI: IMSI := 9999999

  /** The temporary identifier of the first UE of a creation batch. */
  const FirstCRNTI: nat := 90125

  /** The type tag of every created UE. */
  const PhoneType: string := "phone"

  /** Event types of a `UEEvent` (Go `uint8` constants). */
  const NONE: bv8 := 0
  const ADDED: bv8 := 1
  const UPDATED: bv8 := 2
  const DELETED: bv8 := 3

  /** A float64 signal strength, kept as its IEEE-754 bit pattern and never interpreted. */
  datatype Strength = Strength(bits: bv64)

  /** The serving cell of a UE. */
  datatype UECell = UECell(id: GEnbID, ecgi: ECGI, strength: Strength)

  /** A UE; its location and rotation (floats, always zero here) are not modelled. */
  datatype UE = UE(imsi: IMSI, ueType: string, cell: UECell, crnti: CRNTI, isAdmitted: bool)

  datatype UEEvent = UEEvent(ue: UE, eventType: bv8)

  datatype WatchOptions = WatchOptions(replay: bool, monitor: bool)

  /** The random choices made when one UE is created: the IMSI, the IMSI drawn on a collision, the cell and the strength. */
  datatype Draw = Draw(imsi: IMSI, retryIMSI: IMSI, ecgi: ECGI, strength: Strength)

  /** What the random source guarantees: both IMSIs lie in the band. */
  predicate ValidDraw(d: Draw) {
    MinIMSI <= d.imsi < MaxIMSI && MinIMSI <= d.retryIMSI < MaxIMSI
  }

  predicate ValidDraws(draws: seq<Draw>) {
    forall j :: 0 <= j < |draws| ==> ValidDraw(draws[j])
  }

  /** Go's `types.CRNTI(90125 + i)`: the sum cut to 32 bits. */
  function CRNTIOf(i: nat): CRNTI {
    ((FirstCRNTI + i) % 0x1_0000_0000) as bv32
  }

  // ---------------------------------------------------------------------
  // Creation, as a function of the draws

  /** The IMSI a draw ends up using: the first one, or on a collision the retry, used without a second check. */
  function PickIMSI(keys: set<IMSI>, d: Draw): IMSI {
    if d.imsi in keys then d.retryIMSI else d.imsi
  }

  /** The UE created for draw `d` as the `i`-th of its batch. */
  function NewUE(imsi: IMSI, d: Draw, i: nat): UE {
    UE(imsi, PhoneType, UECell(d.ecgi as GEnbID, d.ecgi, d.strength), CRNTIOf(i), false)
  }

  /** The map after creating the UE for draw `d`, the `i`-th of its batch. */
  function AddDraw(m: map<IMSI, UE>, d: Draw, i: nat): map<IMSI, UE> {
    var imsi := PickIMSI(m.Keys, d);
    m[imsi := NewUE(imsi, d, i)]
  }

  /** The map after creating one UE per draw, the first of them as the `i`-th of the batch. */
  function Created(m: map<IMSI, UE>, draws: seq<Draw>, i: nat): map<IMSI, UE>
    decreases |draws|
  {
    if draws == [] then m else Created(AddDraw(m, draws[0], i), draws[1..], i + 1)
  }

  /** True when no draw of the batch overwrites an IMSI that is already in use. */
  predicate NoOverwrite(keys: set<IMSI>, draws: seq<Draw>)
    decreases |draws|
  {
    draws == [] ||
    (var imsi := PickIMSI(keys, draws[0]);
     imsi !in keys && NoOverwrite(keys + {imsi}, draws[1..]))
  }

  /** One draw adds its IMSI to the keys, growing the map unless the IMSI was taken. */
  lemma AddDrawSize(m: map<IMSI, UE>, d: Draw, i: nat)
    ensures AddDraw(m, d, i).Keys == m.Keys + {PickIMSI(m.Keys, d)}
    ensures |AddDraw(m, d, i)| == if PickIMSI(m.Keys, d) in m then |m| else |m| + 1
  {
    var imsi := PickIMSI(m.Keys, d);
    assert AddDraw(m, d, i).Keys == m.Keys + {imsi};
  }

  /** Creation keeps every IMSI already present and adds at most one per draw; it adds exactly one per draw iff no draw overwrites. */
  lemma {:induction false} CreatedSize(m: map<IMSI, UE>, draws: seq<Draw>, i: nat)
    ensures m.Keys <= Created(m, draws, i).Keys
    ensures |Created(m, draws, i)| <= |m| + |draws|
    ensures |Created(m, draws, i)| == |m| + |draws| <==> NoOverwrite(m.Keys, draws)
    decreases |draws|
  {
    if draws != [] {
      var imsi := PickIMSI(m.Keys, draws[0]);
      var m' := AddDraw(m, draws[0], i);
      AddDrawSize(m, draws[0], i);
      CreatedSize(m', draws[1..], i + 1);
      assert Created(m, draws, i) == Created(m', draws[1..], i + 1);
      assert NoOverwrite(m.Keys, draws) == (imsi !in m && NoOverwrite(m'.Keys, draws[1..]));
    }
  }

  /** Every UE that creation adds or replaces is a fresh unadmitted phone built from draw `j` of the batch, as its `i + j`-th UE. */
  lemma {:induction false} CreatedEntries(m: map<IMSI, UE>, draws: seq<Draw>, i: nat, k: IMSI) returns (j: nat)
    requires k in Created(m, draws, i) && (k !in m || Created(m, draws, i)[k] != m[k])
    ensures j < |draws| && Created(m, draws, i)[k] == NewUE(k, draws[j], i + j)
    ensures Created(m, draws, i)[k].imsi == k
    ensures Created(m, draws, i)[k].ueType == PhoneType && !Created(m, draws, i)[k].isAdmitted
    decreases |draws|
  {
    if draws == [] {
      assert false;
    }
    var imsi := PickIMSI(m.Keys, draws[0]);
    var m' := AddDraw(m, draws[0], i);
    var r := Created(m', draws[1..], i + 1);
    assert r == Created(m, draws, i);
    if k in m' && r[k] == m'[k] {
      if k != imsi {
        assert false;
      }
      j := 0;
    } else {
      var j' := CreatedEntries(m', draws[1..], i + 1, k);
      assert draws[1..][j'] == draws[j' + 1];
      j := j' + 1;
    }
  }

  /** Creation keeps every IMSI in the band. */
  lemma {:induction false} CreatedInBand(m: map<IMSI, UE>, draws: seq<Draw>, i: nat)
    requires forall k :: k in m ==> m[k].imsi == k && MinIMSI <= k < MaxIMSI
    requires ValidDraws(draws)
    ensures forall k :: k in Created(m, draws, i) ==> Created(m, draws, i)[k].imsi == k && MinIMSI <= k < MaxIMSI
    decreases |draws|
  {
    if draws != [] {
      var imsi := PickIMSI(m.Keys, draws[0]);
      assert ValidDraw(draws[0]);
      assert MinIMSI <= imsi < MaxIMSI && NewUE(imsi, draws[0], i).imsi == imsi;
      CreatedInBand(AddDraw(m, draws[0], i), draws[1..], i + 1);
    }
  }

  /** When the first IMSIs of a batch are pairwise distinct and unused, no draw overwrites and the batch grows the map by exactly its length. */
  lemma {:induction false} DistinctDrawsNoOverwrite(keys: set<IMSI>, draws: seq<Draw>)
    requires forall j :: 0 <= j < |draws| ==> draws[j].imsi !in keys
    requires forall j, l :: 0 <= j < l < |draws| ==> draws[j].imsi != draws[l].imsi
    ensures NoOverwrite(keys, draws)
    decreases |draws|
  {
    if draws != [] {
      var keys' := keys + {draws[0].imsi};
      forall j | 0 <= j < |draws| - 1
        ensures draws[1..][j].imsi !in keys'
      {
        assert draws[1..][j] == draws[j + 1];
      }
      DistinctDrawsNoOverwrite(keys', draws[1..]);
    }
  }

  /**
   * The collision the code retries only once: when both IMSIs of a draw are
   * taken, the UE already holding the retry IMSI is silently replaced and the
   * registry does not grow.
   */
  lemma DoubleCollisionOverwrites(m: map<IMSI, UE>, d: Draw, i: nat)
    requires d.imsi in m && d.retryIMSI in m
    ensures |Created(m, [d], i)| == |m|
    ensures Created(m, [d], i) == m[d.retryIMSI := NewUE(d.retryIMSI, d, i)]
  {
    var m' := m[d.retryIMSI := NewUE(d.retryIMSI, d, i)];
    assert [d][1..] == [];
    assert m'.Keys == m.Keys;
  }

  // ---------------------------------------------------------------------
  // Events

  function Repeat<T>(x: T, n: nat): (r: seq<T>)
    ensures |r| == n && forall j :: 0 <= j < n ==> r[j] == x
  {
    if n == 0 then [] else Repeat(x, n - 1) + [x]
  }

  /** What one watcher registered `m` times receives when `evs` are notified in order. */
  function Broadcast(evs: seq<UEEvent>, m: nat): seq<UEEvent> {
    if evs == [] then [] else Broadcast(evs[..|evs| - 1], m) + Repeat(evs[|evs| - 1], m)
  }

  lemma BroadcastSnoc(evs: seq<UEEvent>, e: UEEvent, m: nat)
    ensures Broadcast(evs + [e], m) == Broadcast(evs, m) + Repeat(e, m)
  {
    assert (evs + [e])[..|evs|] == evs;
  }

  /** How many times `w` occurs in `s`. */
  function Count(s: seq<Sink>, w: Sink): nat {
    if s == [] then 0 else Count(s[..|s| - 1], w) + (if s[|s| - 1] == w then 1 else 0)
  }

  /** No IMSI occurs twice in `s`. */
  ghost predicate Distinct(s: seq<IMSI>) {
    forall j, l :: 0 <= j < l < |s| ==> s[j] != s[l]
  }

  /** `now` is `was` without the distinct IMSIs of `removed`, all of which `was` held. */
  ghost predicate RemovedSoFar(now: map<IMSI, UE>, was: map<IMSI, UE>, removed: seq<IMSI>) {
    && (forall j :: 0 <= j < |removed| ==> removed[j] in was)
    && Distinct(removed)
    && (forall k :: k in now <==> k in was && k !in removed)
    && (forall k :: k in now ==> now[k] == was[k])
  }

  /** Removing one more held IMSI extends the record, and its DELETED event carries the original UE. */
  lemma RemovedStep(now: map<IMSI, UE>, was: map<IMSI, UE>, removed: seq<IMSI>, imsi: IMSI)
    requires RemovedSoFar(now, was, removed) && imsi in now
    ensures now[imsi] == was[imsi]
    ensures RemovedSoFar(now - {imsi}, was, removed + [imsi])
    ensures DeletedEvents(was, removed + [imsi]) == DeletedEvents(was, removed) + [UEEvent(was[imsi], DELETED)]
  {
    assert (removed + [imsi])[..|removed|] == removed;
  }

  /** A log that received `evs` and then `ev` holds the broadcast of `evs + [ev]`. */
  lemma BroadcastStep(base: seq<UEEvent>, mid: seq<UEEvent>, after: seq<UEEvent>, evs: seq<UEEvent>, ev: UEEvent, m: nat)
    requires mid == base + Broadcast(evs, m) && after == mid + Repeat(ev, m)
    ensures after == base + Broadcast(evs + [ev], m)
  {
    BroadcastSnoc(evs, ev, m);
  }

  /** The DELETED events for the UEs `keys` of `m`, in that order. */
  function DeletedEvents(m: map<IMSI, UE>, keys: seq<IMSI>): seq<UEEvent>
    requires forall j :: 0 <= j < |keys| ==> keys[j] in m
  {
    if keys == [] then []
    else DeletedEvents(m, keys[..|keys| - 1]) + [UEEvent(m[keys[|keys| - 1]], DELETED)]
  }

  /** The NONE events replaying `list`, in that order. */
  function ReplayEvents(list: seq<UE>): (r: seq<UEEvent>)
    ensures |r| == |list|
    ensures forall j :: 0 <= j < |list| ==> r[j] == UEEvent(list[j], NONE)
  {
    if list == [] then [] else ReplayEvents(list[..|list| - 1]) + [UEEvent(list[|list| - 1], NONE)]
  }

  /** Only the first options value counts; none at all means monitor without replay. */
  function DecodeWatchOptions(options: seq<WatchOptions>): (r: (bool, bool))
    ensures options == [] ==> r == (true, false)
    ensures options != [] ==> r.0 == options[0].monitor && r.1 == options[0].replay
  {
    var monitor := |options| == 0 || options[0].monitor;
    var replay := |options| > 0 && options[0].replay;
    (monitor, replay)
  }

  /** `list` holds each UE of `m` exactly once, in some order. */
  ghost predicate Listing(list: seq<UE>, m: map<IMSI, UE>) {
    && |list| == |m|
    && (forall j :: 0 <= j < |list| ==> list[j].imsi in m && m[list[j].imsi] == list[j])
    && (forall j, l :: 0 <= j < l < |list| ==> list[j].imsi != list[l].imsi)
    && (forall k :: k in m ==> exists j :: 0 <= j < |list| && list[j].imsi == k)
  }

  /** Whether a listing keeps `u`: every UE, or only those served by one cell. */
  predicate Selected(u: UE, cell: Option<ECGI>) {
    cell.None? || u.cell.ecgi == cell.value
  }

  /** `list` holds, once each, the selected UEs of `m` whose IMSIs have left `remaining`. */
  ghost predicate ListedSoFar(list: seq<UE>, m: map<IMSI, UE>, remaining: set<IMSI>, cell: Option<ECGI>) {
    && remaining <= m.Keys
    && (forall j :: 0 <= j < |list| ==>
          list[j].imsi in m && m[list[j].imsi] == list[j] && list[j].imsi !in remaining && Selected(list[j], cell))
    && (forall j, l :: 0 <= j < l < |list| ==> list[j].imsi != list[l].imsi)
    && (forall k :: k in m && Selected(m[k], cell) ==> k in remaining || exists j :: 0 <= j < |list| && list[j].imsi == k)
  }

  /** Visiting one more IMSI keeps a partial listing, appending its UE when selected. */
  lemma ListedStep(list: seq<UE>, m: map<IMSI, UE>, remaining: set<IMSI>, cell: Option<ECGI>, imsi: IMSI)
    requires forall k :: k in m ==> m[k].imsi == k
    requires ListedSoFar(list, m, remaining, cell) && imsi in remaining
    ensures ListedSoFar(if Selected(m[imsi], cell) then list + [m[imsi]] else list, m, remaining - {imsi}, cell)
  {
    var next := if Selected(m[imsi], cell) then list + [m[imsi]] else list;
    forall k | k in m && Selected(m[k], cell) && k !in remaining - {imsi}
      ensures exists j :: 0 <= j < |next| && next[j].imsi == k
    {
      if k == imsi {
        assert next == list + [m[imsi]];
        assert next[|next| - 1].imsi == k;
      } else {
        var j :| 0 <= j < |list| && list[j].imsi == k;
        assert next[j] == list[j];
      }
    }
  }

  /** A partial listing with nothing left to visit lists every selected UE. */
  lemma ListedAll(list: seq<UE>, m: map<IMSI, UE>, cell: Option<ECGI>)
    requires ListedSoFar(list, m, {}, cell)
    ensures forall j :: 0 <= j < |list| ==> list[j].imsi in m && m[list[j].imsi] == list[j] && Selected(list[j], cell)
    ensures forall j, l :: 0 <= j < l < |list| ==> list[j].imsi != list[l].imsi
    ensures forall k :: k in m && Selected(m[k], cell) ==> exists j :: 0 <= j < |list| && list[j].imsi == k
  {
  }

  /** A Go channel handed to WatchUEs: the events sent to it, in order, and whether it was closed. */
  class Sink {
    var events: seq<UEEvent>
    var closed: bool

    constructor ()
      ensures events == [] && !closed
    {
      events := [];
      closed := false;
    }

    method Send(e: UEEvent)
      modifies this
      ensures events == old(events) + [e] && closed == old(closed)
    {
      events := events + [e];
    }

    /** Closing an already closed channel panics in Go, so the sink must still be open. */
    method Close()
      requires !closed
      modifies this
      ensures events == old(events) && closed
    {
      closed := true;
    }
  }

  class UERegistry {
    var ues: map<IMSI, UE>
    var watchers: seq<Sink>

    /** Every UE is stored under its own IMSI, which lies in the band. */
    ghost predicate Valid()
      reads this
    {
      forall k :: k in ues ==> ues[k].imsi == k && MinIMSI <= k < MaxIMSI
    }

    ghost function Watchers(): set<Sink>
      reads this
    {
      set w | w in watchers
    }

    /** How many times `w` is on the watcher list, and so how many copies of each event it receives. */
    ghost function Times(w: Sink): nat
      reads this
    {
      Count(watchers, w)
    }

    /** A registry primed with one UE per draw. */
    constructor (count: nat, draws: seq<Draw>)
      requires |draws| == count && ValidDraws(draws)
      ensures Valid() && watchers == []
      ensures ues == Created(map[], draws, 0)
    {
      ues := map[];
      watchers := [];
      new;
      CreateUEs(count, draws);
    }

    /** Sends `ev` to every watcher, in list order. */
    method Notify(ev: UEEvent)
      modifies Watchers()
      ensures forall w :: w in Watchers() ==> w.events == old(w.events) + Repeat(ev, Times(w)) && w.closed == old(w.closed)
    {
      var i := 0;
      while i < |watchers|
        invariant 0 <= i <= |watchers|
        invariant forall w :: w in Watchers() ==>
          w.events == old(w.events) + Repeat(ev, Count(watchers[..i], w)) && w.closed == old(w.closed)
      {
        assert watchers[..i + 1][..i] == watchers[..i];
        watchers[i].Send(ev);
        i := i + 1;
      }
      assert watchers[..i] == watchers;
    }

    function GetUECount(): (n: nat)
      reads this
      ensures n == |ues|
    {
      |ues|
    }

    /** Adds one UE per draw; a draw whose both IMSIs are taken replaces an existing UE. */
    method CreateUEs(count: nat, draws: seq<Draw>)
      requires Valid()
      requires |draws| == count && ValidDraws(draws)
      modifies this
      ensures Valid() && watchers == old(watchers)
      ensures ues == Created(old(ues), draws, 0)
    {
      CreatedInBand(ues, draws, 0);
      var i := 0;
      while i < count
        invariant 0 <= i <= count
        invariant Created(ues, draws[i..], i) == Created(old(ues), draws, 0)
        invariant watchers == old(watchers)
      {
        var imsi := draws[i].imsi;
        if imsi in ues {
          imsi := draws[i].retryIMSI;
        }
        var ue := NewUE(imsi, draws[i], i);
        assert draws[i..][1..] == draws[i + 1..];
        ues := ues[ue.imsi := ue];
        i := i + 1;
      }
      assert draws[i..] == [];
    }

    method GetUE(imsi: IMSI) returns (r: Result<UE>)
      ensures r.Ok? <==> imsi in ues
      ensures r.Ok? ==> r.value == ues[imsi]
      ensures r.Err? ==> r.error == Error(NotFound)
    {
      if imsi in ues {
        return Ok(ues[imsi]);
      }
      return Err(Error(NotFound));
    }

    /** Removes the UE and tells every watcher with a DELETED event; an unknown IMSI changes nothing. */
    method DestroyUE(imsi: IMSI) returns (r: Result<UE>)
      requires Valid()
      modifies this, Watchers()
      ensures Valid() && watchers == old(watchers)
      ensures imsi in old(ues) ==> r == Ok(old(ues)[imsi]) && ues == old(ues) - {imsi}
      ensures imsi in old(ues) ==> forall w :: w in Watchers() ==>
        w.events == old(w.events) + Repeat(UEEvent(old(ues)[imsi], DELETED), Times(w)) && w.closed == old(w.closed)
      ensures imsi !in old(ues) ==> r == Err(Error(NotFound)) && ues == old(ues)
      ensures imsi !in old(ues) ==> forall w :: w in Watchers() ==> w.events == old(w.events) && w.closed == old(w.closed)
    {
      if imsi in ues {
        var ue := ues[imsi];
        ues := ues - {imsi};
        assert Valid();
        Notify(UEEvent(ue, DELETED));
        return Ok(ue);
      }
      return Err(Error(NotFound));
    }

    /** Re-homes a UE: only its serving ECGI and strength change, and watchers get an UPDATED event. */
    method MoveUE(imsi: IMSI, ecgi: ECGI, strength: Strength) returns (err: Option<Error>)
      requires Valid()
      modifies this, Watchers()
      ensures Valid() && watchers == old(watchers)
      ensures err == None <==> imsi in old(ues)
      ensures imsi in old(ues) ==>
        var was := old(ues)[imsi];
        var now := was.(cell := was.cell.(ecgi := ecgi, strength := strength));
        && ues == old(ues)[imsi := now]
        && (forall w :: w in Watchers() ==>
              w.events == old(w.events) + Repeat(UEEvent(now, UPDATED), Times(w)) && w.closed == old(w.closed))
      ensures imsi !in old(ues) ==> err == Some(Error(NotFound)) && ues == old(ues)
      ensures imsi !in old(ues) ==> forall w :: w in Watchers() ==> w.events == old(w.events) && w.closed == old(w.closed)
    {
      if imsi in ues {
        var ue := ues[imsi];
        ue := ue.(cell := ue.cell.(ecgi := ecgi, strength := strength));
        ues := ues[imsi := ue];
        Notify(UEEvent(ue, UPDATED));
        return None;
      }
      return Some(Error(NotFound));
    }

    /** Every UE, once each, in the map's iteration order. */
    method ListAllUEs() returns (list: seq<UE>)
      requires Valid()
      ensures Listing(list, ues)
      ensures |list| == GetUECount()
    {
      list := [];
      var remaining := ues.Keys;
      while remaining != {}
        invariant ListedSoFar(list, ues, remaining, None)
        invariant |list| + |remaining| == |ues|
        decreases remaining
      {
        var imsi :| imsi in remaining;
        ListedStep(list, ues, remaining, None, imsi);
        list := list + [ues[imsi]];
        remaining := remaining - {imsi};
      }
      ListedAll(list, ues, None);
    }

    /** The UEs served by `ecgi`, once each. */
    method ListUEs(ecgi: ECGI) returns (list: seq<UE>)
      requires Valid()
      ensures forall j :: 0 <= j < |list| ==> list[j].imsi in ues && ues[list[j].imsi] == list[j] && list[j].cell.ecgi == ecgi
      ensures forall j, l :: 0 <= j < l < |list| ==> list[j].imsi != list[l].imsi
      ensures forall k :: k in ues && ues[k].cell.ecgi == ecgi ==> exists j :: 0 <= j < |list| && list[j].imsi == k
    {
      list := [];
      var remaining := ues.Keys;
      while remaining != {}
        invariant ListedSoFar(list, ues, remaining, Some(ecgi))
        decreases remaining
      {
        var imsi :| imsi in remaining;
        ListedStep(list, ues, remaining, Some(ecgi), imsi);
        if ues[imsi].cell.ecgi == ecgi {
          list := list + [ues[imsi]];
        }
        remaining := remaining - {imsi};
      }
      ListedAll(list, ues, Some(ecgi));
    }

    /** Destroys `count` UEs, or all of them when there are fewer, in iteration order; each destruction is notified. */
    method RemoveSomeUEs(count: nat) returns (ghost removed: seq<IMSI>)
      requires Valid()
      modifies this, Watchers()
      ensures Valid() && watchers == old(watchers)
      ensures |removed| == if count < |old(ues)| then count else |old(ues)|
      ensures |ues| == |old(ues)| - |removed|
      ensures forall j :: 0 <= j < |removed| ==> removed[j] in old(ues)
      ensures Distinct(removed)
      ensures forall k :: k in ues <==> k in old(ues) && k !in removed
      ensures forall k :: k in ues ==> ues[k] == old(ues)[k]
      ensures forall w :: w in Watchers() ==>
        w.events == old(w.events) + Broadcast(DeletedEvents(old(ues), removed), Times(w)) && w.closed == old(w.closed)
    {
      removed := [];
      var c := count;
      while c != 0 && ues != map[]
        invariant Valid() && watchers == old(watchers)
        invariant 0 <= c && c + |removed| == count && |ues| + |removed| == |old(ues)|
        invariant RemovedSoFar(ues, old(ues), removed)
        invariant forall w :: w in Watchers() ==>
          w.events == old(w.events) + Broadcast(DeletedEvents(old(ues), removed), Times(w)) && w.closed == old(w.closed)
        decreases c
      {
        var imsi :| imsi in ues;
        ghost var evs := DeletedEvents(old(ues), removed);
        label Round:
        removed := RemoveNext(imsi, old(ues), removed);
        forall w | w in Watchers()
          ensures w.events == old(w.events) + Broadcast(DeletedEvents(old(ues), removed), Times(w))
        {
          BroadcastStep(old(w.events), old@Round(w.events), w.events, evs, UEEvent(old(ues)[imsi], DELETED), Times(w));
        }
        c := c - 1;
      }
      if c != 0 {
        assert |ues| == 0;
        assert |removed| == |old(ues)| < count;
      } else {
        assert |removed| == count <= |old(ues)|;
      }
    }

    /** One round of RemoveSomeUEs: destroys a held UE and records it after the earlier ones. */
    method RemoveNext(imsi: IMSI, ghost was: map<IMSI, UE>, ghost removed: seq<IMSI>) returns (ghost removed': seq<IMSI>)
      requires Valid() && imsi in ues && RemovedSoFar(ues, was, removed)
      modifies this, Watchers()
      ensures Valid() && watchers == old(watchers)
      ensures removed' == removed + [imsi] && |ues| == old(|ues|) - 1
      ensures RemovedSoFar(ues, was, removed')
      ensures forall w :: w in Watchers() ==>
        w.events == old(w.events) + Repeat(UEEvent(was[imsi], DELETED), Times(w)) && w.closed == old(w.closed)
      ensures DeletedEvents(was, removed') == DeletedEvents(was, removed) + [UEEvent(was[imsi], DELETED)]
    {
      RemovedStep(ues, was, removed, imsi);
      var _ := DestroyUE(imsi);
      removed' := removed + [imsi];
    }

    /** Reconciles the population towards `count`, computing the difference in Go's 64-bit signed arithmetic. */
    method SetUECount(count: nat, draws: seq<Draw>) returns (ghost removed: seq<IMSI>)
      requires Valid()
      requires count < 0x1_0000_0000_0000_0000
      requires |draws| == ToCreate(|ues|, count) && ValidDraws(draws)
      modifies this, Watchers()
      ensures Valid() && watchers == old(watchers)
      ensures count <= old(|ues|) ==> |ues| == count && ues.Keys <= old(ues.Keys)
      ensures old(|ues|) < count <= 0x8000_0000_0000_0000 + old(|ues|) ==>
        && ues == Created(old(ues), draws, 0)
        && |ues| <= count
        && (|ues| == count <==> NoOverwrite(old(ues.Keys), draws))
        && removed == []
        && forall w :: w in Watchers() ==> w.events == old(w.events) && w.closed == old(w.closed)
      ensures 0x8000_0000_0000_0000 + old(|ues|) < count ==> ues == map[]
      ensures count <= old(|ues|) || 0x8000_0000_0000_0000 + old(|ues|) < count ==>
        && (forall j :: 0 <= j < |removed| ==> removed[j] in old(ues))
        && Distinct(removed)
        && (forall k :: k in ues <==> k in old(ues) && k !in removed)
        && (forall k :: k in ues ==> ues[k] == old(ues)[k])
        && forall w :: w in Watchers() ==>
          w.events == old(w.events) + Broadcast(DeletedEvents(old(ues), removed), Times(w)) && w.closed == old(w.closed)
    {
      BandBoundsSize(ues);
      DeltaCases(|ues|, count);
      var delta := Delta(|ues|, count);
      removed := [];
      if delta < 0 {
        CreatedSize(ues, draws, 0);
        CreateUEs(-delta, draws);
      } else if delta > 0 {
        removed := RemoveSomeUEs(delta);
        if |ues| == 0 {
          assert ues == map[];
        }
      }
    }

    /** Sends a NONE event per held UE when replaying, registers the sink when monitoring, and closes a replay-only sink. */
    method WatchUEs(sink: Sink, options: seq<WatchOptions>) returns (ghost replayed: seq<UE>)
      requires Valid()
      requires DecodeWatchOptions(options).1 && !DecodeWatchOptions(options).0 ==> !sink.closed
      modifies this, sink
      ensures Valid() && ues == old(ues)
      ensures watchers == old(watchers) + (if DecodeWatchOptions(options).0 then [sink] else [])
      ensures DecodeWatchOptions(options).1 ==> Listing(replayed, ues)
      ensures !DecodeWatchOptions(options).1 ==> replayed == []
      ensures sink.events == old(sink.events) + ReplayEvents(replayed)
      ensures sink.closed == (old(sink.closed) || (DecodeWatchOptions(options).1 && !DecodeWatchOptions(options).0))
    {
      var (monitor, replay) := DecodeWatchOptions(options);
      if monitor {
        watchers := watchers + [sink];
      }
      replayed := [];
      if replay {
        var list := ListAllUEs();
        Replay(sink, list);
        replayed := list;
        if !monitor {
          sink.Close();
        }
      }
    }
  }

  /** Sends a NONE event per UE of `list` to `sink`, in order. */
  method Replay(sink: Sink, list: seq<UE>)
    modifies sink
    ensures sink.events == old(sink.events) + ReplayEvents(list) && sink.closed == old(sink.closed)
  {
    var i := 0;
    while i < |list|
      invariant 0 <= i <= |list|
      invariant sink.events == old(sink.events) + ReplayEvents(list[..i])
      invariant sink.closed == old(sink.closed)
    {
      assert list[..i + 1][..i] == list[..i];
      sink.Send(UEEvent(list[i], NONE));
      i := i + 1;
    }
    assert list[..i] == list;
  }

  /** Go's conversion of an integer to `int64`: wrap into [-2^63, 2^63). */
  function Int64(x: int): (r: int)
    ensures -0x8000_0000_0000_0000 <= r < 0x8000_0000_0000_0000
    ensures (r - x) % 0x1_0000_0000_0000_0000 == 0
  {
    (x + 0x8000_0000_0000_0000) % 0x1_0000_0000_0000_0000 - 0x8000_0000_0000_0000
  }

  /** `len(r.ues) - int(count)` in Go's `int`, for a `uint` count. */
  function Delta(size: nat, count: nat): int {
    Int64(size - Int64(count))
  }

  /** The wrap in `Delta` matters only when `count` exceeds the population by more than 2^63. */
  lemma DeltaCases(size: nat, count: nat)
    requires size < 0x8000_0000_0000_0000 && count < 0x1_0000_0000_0000_0000
    ensures count <= 0x8000_0000_0000_0000 + size ==> Delta(size, count) == size - count
    ensures 0x8000_0000_0000_0000 + size < count ==> Delta(size, count) == size - count + 0x1_0000_0000_0000_0000 > size
  {
    if count < 0x8000_0000_0000_0000 {
      assert Int64(count) == count;
      assert Int64(size - count) == size - count;
    } else {
      assert Int64(count) == count - 0x1_0000_0000_0000_0000;
      if count <= 0x8000_0000_0000_0000 + size {
        assert Int64(size - count + 0x1_0000_0000_0000_0000) == size - count;
      } else {
        assert Int64(size - count + 0x1_0000_0000_0000_0000) == size - count + 0x1_0000_0000_0000_0000;
      }
    }
  }

  /** How many UEs SetUECount creates: `uint(-delta)` when the difference is negative. */
  function ToCreate(size: nat, count: nat): nat {
    var d := Delta(size, count);
    if d < 0 then -d else 0
  }

  /** A registry whose IMSIs lie in the band holds fewer than 2^63 UEs, so `len(r.ues)` never wraps. */
  lemma BandBoundsSize(m: map<IMSI, UE>)
    requires forall k :: k in m ==> MinIMSI <= k < MaxIMSI
    ensures |m| < 0x8000_0000_0000_0000
  {
    RangeSize(m.Keys, MinIMSI, MaxIMSI);
  }

  lemma {:induction false} RangeSize(s: set<IMSI>, lo: IMSI, hi: IMSI)
    requires lo <= hi
    requires forall k :: k in s ==> lo <= k < hi
    ensures |s| <= (hi - lo) as int
    decreases (hi - lo) as int
  {
    if hi != lo {
      RangeSize(s - {hi - 1}, lo, hi - 1);
    } else {
      assert s == {};
    }
  }
}
