/** Events and stored records, as `app/schemas/domain.py` shapes them. */
module Records {
  import opened Common

  datatype Cte =
    | Harvesting
    | Cooling
    | InitialPacking
    | FirstLandBasedReceiving
    | Shipping
    | Receiving
    | Transformation

  datatype Mode = Mock | Live | NoDelivery

  datatype Status = Generated | Posted | Failed

  /** Quantities are cents of a unit, timestamps microseconds; `offset` is the UTC offset a
      time is written with, none for a time written without one, which counts as UTC.
      `sourceLot` and `inputLots` are the two KDEs the lineage reads; the last two fields say
      whether the event has a location identifier and every KDE its CTE requires. */
  datatype Event = Event(
    cte: Cte,
    lot: string,
    description: string,
    quantity: int,
    timestamp: int,
    offset: Option<int>,
    location: string,
    gln: Option<string>,
    sourceLot: Option<string>,
    inputLots: seq<string>,
    located: bool,
    complete: bool)

  type Hash = string

  /** Why an event is rejected: the mock's four reasons, or text of a live service. */
  datatype Fault = TooOld | NoLocation | MissingKdes | DuplicateInBatch | Other(text: string)

  /** One event's entry in an ingest response. */
  datatype Verdict = Verdict(lot: Option<string>, cte: Option<Cte>, accepted: bool, errors: seq<Fault>, chain: Hash)

  /** The `error` of a stored record. */
  datatype Complaint = Rejected(faults: seq<Fault>) | Unexplained | Transport(text: string)

  datatype Record = Record(
    id: nat,
    seqNo: int,
    event: Event,
    parents: seq<string>,
    mode: Mode,
    status: Status,
    attempts: nat,
    succeededAt: Option<int>,
    verdict: Option<Verdict>,
    error: Option<Complaint>,
    key: Option<string>)
}
