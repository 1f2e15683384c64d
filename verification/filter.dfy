/**
 * Role-based redaction of query responses (`filterQueryResponse`).
 *
 * The asset record is the element type of `ResponseStruct.AssetState.Asset`.
 * Its nested `DmaCert { Cert }` certificate is the field `cert`. The policy is a
 * fixed table from caller role to the set of fields cleared to "".
 */
module Filter {

  /** One shipment record as a query returns it. `assetId` is the ledger key. */
  datatype AssetRecord = AssetRecord(
    transactionType: string,
    ownerId: string,
    assetId: string,
    matnrAf: string,
    poDma: string,
    poSupp: string,
    dmaDelDate: string,
    afDelDate: string,
    truckMod: string,
    truckPDate: string,
    truckChnum: string,
    truckEnnum: string,
    suppTest: string,
    grDma: string,
    grAf: string,
    dmaMasdat: string,
    afDmaTest: string,
    cert: string,
    afDoc: string,
    caller: string,
    v5cid: string)

  /** Names of the fields of an asset record. */
  datatype Field =
    | TransactionType | OwnerId | AssetId | MatnrAf | PoDma | PoSupp | DmaDelDate
    | AfDelDate | TruckMod | TruckPDate | TruckChnum | TruckEnnum | SuppTest | GrDma
    | GrAf | DmaMasdat | AfDmaTest | Cert | AfDoc | CallerField | V5cid

  function Get(a: AssetRecord, f: Field): string {
    match f
    case TransactionType => a.transactionType
    case OwnerId => a.ownerId
    case AssetId => a.assetId
    case MatnrAf => a.matnrAf
    case PoDma => a.poDma
    case PoSupp => a.poSupp
    case DmaDelDate => a.dmaDelDate
    case AfDelDate => a.afDelDate
    case TruckMod => a.truckMod
    case TruckPDate => a.truckPDate
    case TruckChnum => a.truckChnum
    case TruckEnnum => a.truckEnnum
    case SuppTest => a.suppTest
    case GrDma => a.grDma
    case GrAf => a.grAf
    case DmaMasdat => a.dmaMasdat
    case AfDmaTest => a.afDmaTest
    case Cert => a.cert
    case AfDoc => a.afDoc
    case CallerField => a.caller
    case V5cid => a.v5cid
  }

  /** Two records are equal when they agree on every field. */
  lemma RecordExtensionality(a: AssetRecord, b: AssetRecord)
    requires forall f :: Get(a, f) == Get(b, f)
    ensures a == b
  {
    assert Get(a, TransactionType) == Get(b, TransactionType) && Get(a, OwnerId) == Get(b, OwnerId);
    assert Get(a, AssetId) == Get(b, AssetId) && Get(a, MatnrAf) == Get(b, MatnrAf);
    assert Get(a, PoDma) == Get(b, PoDma) && Get(a, PoSupp) == Get(b, PoSupp);
    assert Get(a, DmaDelDate) == Get(b, DmaDelDate) && Get(a, AfDelDate) == Get(b, AfDelDate);
    assert Get(a, TruckMod) == Get(b, TruckMod) && Get(a, TruckPDate) == Get(b, TruckPDate);
    assert Get(a, TruckChnum) == Get(b, TruckChnum) && Get(a, TruckEnnum) == Get(b, TruckEnnum);
    assert Get(a, SuppTest) == Get(b, SuppTest) && Get(a, GrDma) == Get(b, GrDma);
    assert Get(a, GrAf) == Get(b, GrAf) && Get(a, DmaMasdat) == Get(b, DmaMasdat);
    assert Get(a, AfDmaTest) == Get(b, AfDmaTest) && Get(a, Cert) == Get(b, Cert);
    assert Get(a, AfDoc) == Get(b, AfDoc) && Get(a, CallerField) == Get(b, CallerField);
    assert Get(a, V5cid) == Get(b, V5cid);
  }

  /** The identity read from the query request. */
  datatype Caller = AF | DMA | Supplier | Transporter | Other(name: string)

  function CallerName(c: Caller): string {
    match c
    case AF => "AF"
    case DMA => "DMA"
    case Supplier => "Supplier"
    case Transporter => "Transporter"
    case Other(s) => s
  }

  /** Exact, case-sensitive comparison against the four role names. */
  function ParseCaller(s: string): (c: Caller)
    ensures CallerName(c) == s
    ensures c.Other? <==> s !in {"AF", "DMA", "Supplier", "Transporter"}
  {
    if s == "AF" then AF
    else if s == "DMA" then DMA
    else if s == "Supplier" then Supplier
    else if s == "Transporter" then Transporter
    else Other(s)
  }

  /** Every field of an asset record. */
  const AllFields: set<Field> := {
    TransactionType, OwnerId, AssetId, MatnrAf, PoDma, PoSupp, DmaDelDate,
    AfDelDate, TruckMod, TruckPDate, TruckChnum, TruckEnnum, SuppTest, GrDma,
    GrAf, DmaMasdat, AfDmaTest, Cert, AfDoc, CallerField, V5cid }

  /** The redaction policy: the fields each caller may not see. */
  function Cleared(c: Caller): set<Field> {
    match c
    case AF => {MatnrAf, PoSupp, DmaDelDate, SuppTest, GrDma, Cert}
    case DMA => {Cert}
    case Supplier => {MatnrAf, PoDma, AfDelDate, GrDma, GrAf, DmaMasdat, AfDmaTest, Cert, AfDoc}
    case Transporter =>
      {MatnrAf, PoDma, PoSupp, DmaDelDate, AfDelDate, TruckMod, TruckPDate, TruckChnum,
       TruckEnnum, SuppTest, GrDma, GrAf, DmaMasdat, AfDmaTest, Cert, AfDoc}
    case Other(_) => AllFields - {AssetId}
  }

  /** Redacts one asset record for a caller, branch by branch as the source does. */
  function FilterAsset(a: AssetRecord, c: Caller): (r: AssetRecord)
    ensures forall f :: Get(r, f) == if f in Cleared(c) then "" else Get(a, f)
    ensures r.assetId == a.assetId
    ensures r.cert == ""
  {
    match c
    case AF =>
      a.(matnrAf := "", poSupp := "", dmaDelDate := "", suppTest := "", grDma := "", cert := "")
    case DMA =>
      a.(cert := "")
    case Supplier =>
      a.(matnrAf := "", poDma := "", afDelDate := "", grDma := "", grAf := "", dmaMasdat := "",
         afDmaTest := "", cert := "", afDoc := "")
    case Transporter =>
      a.(matnrAf := "", poDma := "", poSupp := "", dmaDelDate := "", afDelDate := "", truckMod := "",
         truckPDate := "", truckChnum := "", truckEnnum := "", suppTest := "", grDma := "", grAf := "",
         dmaMasdat := "", afDmaTest := "", cert := "", afDoc := "")
    case Other(_) =>
      a.(transactionType := "", ownerId := "", matnrAf := "", poDma := "", poSupp := "", dmaDelDate := "",
         afDelDate := "", truckMod := "", truckPDate := "", truckChnum := "", truckEnnum := "",
         suppTest := "", grDma := "", grAf := "", dmaMasdat := "", afDmaTest := "", afDoc := "",
         caller := "", v5cid := "", cert := "")
  }

  /** The ledger key is never cleared and the certificate always is. */
  lemma PolicyKeepsKeyAndHidesCertificate(c: Caller)
    ensures AssetId !in Cleared(c)
    ensures Cert in Cleared(c)
  {
  }

  /** An unrecognised caller sees nothing but the ledger key; that hides a
      superset of what any named role hides, and strictly more than AF hides. */
  lemma CatchAllHidesMost(a: AssetRecord, c: Caller, s: string)
    ensures Cleared(c) <= Cleared(Other(s))
    ensures forall f :: f != AssetId ==> Get(FilterAsset(a, Other(s)), f) == ""
    ensures PoDma in Cleared(Other(s)) && PoDma !in Cleared(AF)
  {
    forall f: Field
      ensures f in AllFields
    {
      match f
      case TransactionType | OwnerId | AssetId | MatnrAf | PoDma | PoSupp | DmaDelDate => {}
      case AfDelDate | TruckMod | TruckPDate | TruckChnum | TruckEnnum | SuppTest | GrDma => {}
      case GrAf | DmaMasdat | AfDmaTest | Cert | AfDoc | CallerField | V5cid => {}
    }
  }

  /** DMA sees every field except the certificate. */
  lemma DmaSeesAllButCertificate(a: AssetRecord)
    ensures forall f :: f != Cert ==> Get(FilterAsset(a, DMA), f) == Get(a, f)
  {
  }

  /** Filtering an already filtered record for the same caller changes nothing. */
  lemma FilterIdempotent(a: AssetRecord, c: Caller)
    ensures FilterAsset(FilterAsset(a, c), c) == FilterAsset(a, c)
  {
  }

  /** The filtered record depends only on the fields the caller may see: records
      that differ only in hidden fields are indistinguishable after filtering. */
  lemma {:induction false} FilterHidesClearedFields(a: AssetRecord, b: AssetRecord, c: Caller)
    requires forall f :: f !in Cleared(c) ==> Get(a, f) == Get(b, f)
    ensures FilterAsset(a, c) == FilterAsset(b, c)
  {
    RecordExtensionality(FilterAsset(a, c), FilterAsset(b, c));
  }

  /** The sub-structures of `ResponseStruct` that the filter never touches. */
  datatype AssetClassInfo = AssetClassInfo(name: string, prefix: string, assetIdPath: string)
  datatype EventPayloadInfo = EventPayloadInfo(assetId: string, eventFunction: string, txnId: string, txnTs: string)
  datatype EventOutInfo = EventOutInfo(name: string, compliant: string)

  /** A decoded query response. `assets` is `AssetState.Asset`. */
  datatype ResponseStruct = ResponseStruct(
    assetclass: AssetClassInfo,
    assetKey: string,
    assets: seq<AssetRecord>,
    eventPayload: EventPayloadInfo,
    eventOut: EventOutInfo)

  /** `filterQueryResponse`: redacts the first asset of the response for the
      caller and writes it back in place. Indexing an empty asset list panics in
      the source, so callers must supply at least one asset. */
  function FilterQueryResponse(resp: ResponseStruct, caller: string): (r: ResponseStruct)
    requires |resp.assets| > 0
    ensures |r.assets| == |resp.assets|
    ensures r.assets[0] == FilterAsset(resp.assets[0], ParseCaller(caller))
    ensures r.assets[1..] == resp.assets[1..]
    ensures r.(assets := resp.assets) == resp
  {
    resp.(assets := resp.assets[0 := FilterAsset(resp.assets[0], ParseCaller(caller))])
  }

  /** Filtering a response twice for the same caller equals filtering once. */
  lemma FilterQueryResponseIdempotent(resp: ResponseStruct, caller: string)
    requires |resp.assets| > 0
    ensures FilterQueryResponse(FilterQueryResponse(resp, caller), caller) == FilterQueryResponse(resp, caller)
  {
  }
}
