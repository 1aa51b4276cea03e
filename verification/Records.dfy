/** Sensor records as the ingest handler sees them (pipeline/ingestor.py, lines 160-220 and 586-613).
    The normalizers, the address parser and the timestamp parser are given: a record carries what they answer. */
module Records {
  import opened Prelude

  /** What `ipaddress.ip_address` and the private-network test make of a source address as spelled: two spellings of one
      address are the same row in Postgres, so rows and counts go by the canonical one. */
  datatype Address = Unparsable | Valid(canonical: string, isPrivate: bool)

  /** What the sensor's normalizer makes of the record: it may raise, may decline, or yields an event. */
  datatype Shape = Raises | Declined | Event(ip: string, address: Address, ts: Option<int>)

  /** A decoded log line; `canonical` is its sorted, compact JSON form. */
  datatype Record = Record(canonical: string, shape: Shape)

  /** A line as `_parse` returns it. */
  datatype Line = Junk | Parsed(record: Record)

  /** `_event_id`: name-based and collision-free, so it is the name itself. */
  datatype EventId = EventId(sensor: nat, canonical: string, shape: Shape)

  datatype Rules = Rules(dropPrivate: bool, selfIps: set<string>)

  datatype Verdict = Reject | Discard | Keep(ip: string, ts: Option<int>)

  /** What is to be kept: an event whose address parses, is none of our own, and is not private where private ones are
      dropped. */
  predicate Wanted(rules: Rules, shape: Shape) {
    && shape.Event? && shape.address.Valid? && shape.ip !in rules.selfIps
    && !(rules.dropPrivate && shape.address.isPrivate)
  }

  /** The decisions `_handle` takes before it touches the database. */
  function Classify(rules: Rules, r: Record): Verdict {
    match r.shape
    case Raises => Reject
    case Declined => Discard
    case Event(ip, address, ts) =>
      if address.Unparsable? then Discard
      else if rules.dropPrivate && address.isPrivate then Discard
      else if ip in rules.selfIps then Discard
      else Keep(address.canonical, ts)
  }

  function IdOf(sensor: nat, r: Record): EventId { EventId(sensor, r.canonical, r.shape) }

  /** An id belongs to one record of one sensor. */
  lemma IdIsUnique(sensor: nat, r: Record, sensor': nat, r': Record)
    ensures IdOf(sensor, r) == IdOf(sensor', r') <==> sensor == sensor' && r == r'
  {
  }
}
