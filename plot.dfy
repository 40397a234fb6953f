/** `plot_dns_latency`: the server names and latencies it charts. */
module Plot {

  import opened Base
  import opened Seqs

  /** One entry of `dns_results`: a server name and its latency in whole
      milliseconds, `None` when the server did not answer. */
  datatype DnsRecord = DnsRecord(name: string, latency: Option<int>)

  predicate Measured(r: DnsRecord) {
    r.latency.Some?
  }

  /** The records the chart shows, in input order. */
  function Selected(records: seq<DnsRecord>): seq<DnsRecord> {
    Filter(records, Measured)
  }

  /** What a record adds to `names`. */
  function NameEntry(r: DnsRecord): seq<string> {
    if Measured(r) then [r.name] else []
  }

  /** What a record adds to `latencies`. */
  function LatencyEntry(r: DnsRecord): seq<int> {
    if Measured(r) then [r.latency.value] else []
  }

  /** `names`: the name of each record whose latency is not `None`. */
  function Names(records: seq<DnsRecord>): seq<string> {
    FlatMap(records, NameEntry)
  }

  /** `latencies`: the latency of each record whose latency is not `None`. */
  function Latencies(records: seq<DnsRecord>): seq<int> {
    FlatMap(records, LatencyEntry)
  }

  function NameOf(r: DnsRecord): string {
    r.name
  }

  /** The latency of a measured record (a default elsewhere, never used). */
  function LatencyValue(r: DnsRecord): int {
    if Measured(r) then r.latency.value else 0
  }

  // ------------------------------------------------------------------
  // Properties

  /** Both lists are read off the same selected records, in input order:
      they have the same length, entry i of each belongs to the same record,
      and no latency is `None`. */
  lemma Paired(records: seq<DnsRecord>)
    ensures |Names(records)| == |Latencies(records)| == |Selected(records)|
    ensures forall i :: 0 <= i < |Selected(records)| ==>
              Names(records)[i] == Selected(records)[i].name
              && Selected(records)[i].latency == Some(Latencies(records)[i])
  {
    FlatMapOfOptional(records, NameEntry, Measured, NameOf);
    FlatMapOfOptional(records, LatencyEntry, Measured, LatencyValue);
    forall i | 0 <= i < |Selected(records)|
      ensures Measured(Selected(records)[i])
    {
      FilterMembers(records, Measured, Selected(records)[i]);
    }
  }

  /** A record without a latency adds to neither list; one with a latency
      adds its name and latency at the end. */
  lemma AppendRecord(records: seq<DnsRecord>, r: DnsRecord)
    ensures Names(records + [r]) == Names(records) + (if Measured(r) then [r.name] else [])
    ensures Latencies(records + [r]) == Latencies(records) + (if Measured(r) then [r.latency.value] else [])
  {
    FlatMapSnoc(records, r, NameEntry);
    FlatMapSnoc(records, r, LatencyEntry);
  }

  /** A record is charted exactly when it has a latency. */
  lemma ChartedIffMeasured(records: seq<DnsRecord>, r: DnsRecord)
    ensures r in Selected(records) <==> r in records && r.latency.Some?
  {
    FilterMembers(records, Measured, r);
  }
}
