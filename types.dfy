/**
 * Cell and eNodeB identifier packing of the simulator's model package.
 *
 * An ECI is the 28-bit E-UTRAN Cell Identifier of 3GPP TS 23.003 section 19.6:
 * a 20-bit eNB ID above an 8-bit cell ID. The simulator widens it into a
 * 64-bit ECGI (and a 64-bit global eNB ID) by placing the PLMN ID, stored as a
 * plain 32-bit integer rather than as BCD octets, above bit 28. Go's `uint`
 * is taken to be 64 bits wide, so every conversion to a narrower Go type is
 * written out below as an explicit mask.
 */
module Model {

  type PlmnID = bv32
  type EnbID = bv32
  type CellID = bv8
  type ECI = bv32
  type GEnbID = bv64
  type ECGI = bv64
  type CRNTI = bv32
  /** IMSIs are only compared and used as keys, so they are kept as unsigned 64-bit integers. */
  type IMSI = x: int | 0 <= x < 0x1_0000_0000_0000_0000

  const Mask28: bv64 := 0xfff_ffff
  const Mask20: bv64 := 0xfff_ff00

  /** Go's conversion of a 64-bit `uint` to a 32-bit type: keep the low 32 bits. */
  function Low32(x: bv64): (r: bv32)
    ensures r as bv64 == x & 0xffff_ffff
  {
    (x & 0xffff_ffff) as bv32
  }

  /** ECI from an eNB ID and a cell ID; the 32-bit result type drops the top 8 bits of the eNB ID. */
  function ToECI(enbID: EnbID, cid: CellID): (r: ECI)
    ensures r & 0xff == cid as bv32
    ensures r >> 8 == enbID & 0xff_ffff
  {
    Low32(((enbID as bv64) << 8) | cid as bv64)
  }

  /** ECGI from a PLMN ID and an ECI; only the 28 ECI bits are kept. */
  function ToECGI(plmnID: PlmnID, eci: ECI): (r: ECGI)
    ensures r >> 28 == plmnID as bv64
    ensures r & Mask28 == eci as bv64 & Mask28
  {
    ((plmnID as bv64) << 28) | (eci as bv64 & Mask28)
  }

  /** Global eNB ID from a PLMN ID and an eNB ID; the cell-ID byte is zero. */
  function ToGEnbID(plmnID: PlmnID, enbID: EnbID): (r: GEnbID)
    ensures r >> 28 == plmnID as bv64
    ensures r & Mask28 == ((enbID as bv64) & 0xf_ffff) << 8
  {
    ((plmnID as bv64) << 28) | (((enbID as bv64) << 8) & Mask20)
  }

  /** The PLMN ID of an ECGI or global eNB ID: everything above bit 28, cut to 32 bits. */
  function GetPlmnID(id: bv64): (r: PlmnID)
    ensures r as bv64 == (id >> 28) & 0xffff_ffff
  {
    Low32(id >> 28)
  }

  /** The cell ID of an ECI, ECGI or global eNB ID: the low byte. */
  function GetCellID(id: bv64): (r: CellID)
    ensures r as bv64 == id & 0xff
  {
    (id & 0xff) as bv8
  }

  /** The eNB ID of an ECI, ECGI or global eNB ID: bits 8 to 27. */
  function GetEnbID(id: bv64): (r: EnbID)
    ensures r as bv64 == (id >> 8) & 0xf_ffff
  {
    Low32((id & Mask20) >> 8)
  }

  /** The ECI of an ECGI or global eNB ID: the low 28 bits. */
  function GetECI(id: bv64): (r: ECI)
    ensures r as bv64 == id & Mask28
  {
    Low32(id & Mask28)
  }

  lemma ECIRoundTrip(enbID: EnbID, cid: CellID)
    ensures GetCellID(ToECI(enbID, cid) as bv64) == cid
    ensures GetEnbID(ToECI(enbID, cid) as bv64) == enbID & 0xf_ffff
  {
  }

  /** Two ECIs are equal exactly when their cell IDs and the low 24 bits of their eNB IDs are. */
  lemma ECIInjective(e1: EnbID, c1: CellID, e2: EnbID, c2: CellID)
    ensures ToECI(e1, c1) == ToECI(e2, c2) <==> (c1 == c2 && e1 & 0xff_ffff == e2 & 0xff_ffff)
  {
    ECIDeterminesCell(e1, c1, e2, c2);
    ECIDeterminesEnb(e1, c1, e2, c2);
    ECIIgnoresHighEnbBits(e1, c1, e2, c2);
  }

  lemma ECIDeterminesCell(e1: EnbID, c1: CellID, e2: EnbID, c2: CellID)
    ensures ToECI(e1, c1) == ToECI(e2, c2) ==> c1 == c2
  {
  }

  lemma ECIDeterminesEnb(e1: EnbID, c1: CellID, e2: EnbID, c2: CellID)
    ensures ToECI(e1, c1) == ToECI(e2, c2) ==> e1 & 0xff_ffff == e2 & 0xff_ffff
  {
  }

  lemma ECIIgnoresHighEnbBits(e1: EnbID, c1: CellID, e2: EnbID, c2: CellID)
    ensures c1 == c2 && e1 & 0xff_ffff == e2 & 0xff_ffff ==> ToECI(e1, c1) == ToECI(e2, c2)
  {
  }

  lemma ECGIRoundTrip(plmnID: PlmnID, eci: ECI)
    ensures GetPlmnID(ToECGI(plmnID, eci)) == plmnID
    ensures GetECI(ToECGI(plmnID, eci)) == eci & 0xfff_ffff
    ensures eci < 0x1000_0000 ==> GetECI(ToECGI(plmnID, eci)) == eci
  {
    ECGIKeepsPlmn(plmnID, eci);
    ECGIKeepsECI(plmnID, eci);
  }

  lemma ECGIKeepsPlmn(plmnID: PlmnID, eci: ECI)
    ensures GetPlmnID(ToECGI(plmnID, eci)) == plmnID
  {
  }

  lemma ECGIKeepsECI(plmnID: PlmnID, eci: ECI)
    ensures GetECI(ToECGI(plmnID, eci)) == eci & 0xfff_ffff
  {
  }

  /** Taking an ECGI apart and packing it again gives it back, exactly when it fits in 60 bits. */
  lemma ECGIDecomposes(id: ECGI)
    ensures ToECGI(GetPlmnID(id), GetECI(id)) == id <==> id < 0x1000_0000_0000_0000
  {
  }

  lemma ECGIOfECI(plmnID: PlmnID, enbID: EnbID, cid: CellID)
    ensures GetCellID(ToECGI(plmnID, ToECI(enbID, cid))) == cid
    ensures GetEnbID(ToECGI(plmnID, ToECI(enbID, cid))) == enbID & 0xf_ffff
    ensures GetPlmnID(ToECGI(plmnID, ToECI(enbID, cid))) == plmnID
  {
  }

  lemma GEnbIDRoundTrip(plmnID: PlmnID, enbID: EnbID)
    ensures GetPlmnID(ToGEnbID(plmnID, enbID)) == plmnID
    ensures GetEnbID(ToGEnbID(plmnID, enbID)) == enbID & 0xf_ffff
    ensures GetCellID(ToGEnbID(plmnID, enbID)) == 0
  {
  }

  /** A global eNB ID is rebuilt from its parts exactly when it fits in 60 bits and its cell byte is zero. */
  lemma GEnbIDDecomposes(id: GEnbID)
    ensures ToGEnbID(GetPlmnID(id), GetEnbID(id)) == id <==> (id < 0x1000_0000_0000_0000 && id & 0xff == 0)
  {
  }

  /** The global eNB ID of a cell is its ECGI with the cell byte cleared. */
  lemma GEnbIDOfECGI(plmnID: PlmnID, enbID: EnbID, cid: CellID)
    ensures ToGEnbID(plmnID, enbID) == ToECGI(plmnID, ToECI(enbID, cid)) & !0xff
  {
  }
}
