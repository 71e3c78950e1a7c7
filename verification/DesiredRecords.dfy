/** The A and CNAME sets a cluster should have (azure/services/dns/arecords.go, cnamerecords.go). */
module DesiredRecords {
  import opened AzureModel

  datatype Kind = AzureCluster | AzureASOManagedCluster | OtherKind(kind: string)

  /** A Kubernetes service: annotations, whether it is a LoadBalancer, and the IPs of its ingress status. */
  datatype Service = Service(annotations: map<string, string>, loadBalancer: bool, ingress: seq<string>)

  datatype IngressResult = NotReady | NoIngress | Ingress(record: RecordSet)

  const RECORD_TTL := 300
  const MANAGED := "giantswarm.io/external-dns"
  const HOSTNAME := "external-dns.alpha.kubernetes.io/hostname"

  function ARecord(name: string, address: string): RecordSet {
    RecordSet(RecordKey(A, name), Payload(RECORD_TTL, [address], None, []))
  }

  function WildcardRecord(target: string): RecordSet {
    RecordSet(RecordKey(CNAME, "*"), Payload(RECORD_TTL, [], Some(target), []))
  }

  predicate Selected(s: Service) {
    && MANAGED in s.annotations && s.annotations[MANAGED] == "managed"
    && HOSTNAME in s.annotations && s.annotations[HOSTNAME] != ""
    && s.loadBalancer
  }

  predicate HasAddress(s: Service) {
    |s.ingress| > 0 && s.ingress[0] != ""
  }

  predicate Counts(s: Service) { Selected(s) && HasAddress(s) }

  /** strings.TrimSuffix(hostname, "." + zone) */
  function RecordName(hostname: string, zone: string): string {
    var suffix := "." + zone;
    if |suffix| <= |hostname| && hostname[|hostname| - |suffix|..] == suffix
    then hostname[..|hostname| - |suffix|]
    else hostname
  }

  function ServiceRecord(s: Service, zone: string): RecordSet
    requires Counts(s)
  {
    ARecord(RecordName(s.annotations[HOSTNAME], zone), s.ingress[0])
  }

  /** The first selected ingress service decides. */
  function IngressRecord(services: seq<Service>, zone: string): IngressResult {
    if services == [] then NoIngress
    else if !Selected(services[0]) then IngressRecord(services[1..], zone)
    else if !HasAddress(services[0]) then NotReady
    else Ingress(ServiceRecord(services[0], zone))
  }

  /** One record per selected service that has an address, in the order of the services. */
  function GatewayRecords(services: seq<Service>, zone: string): seq<RecordSet> {
    if services == [] then []
    else
      (if Counts(services[0]) then [ServiceRecord(services[0], zone)] else [])
      + GatewayRecords(services[1..], zone)
  }

  /** One turn of the gateway loop: what has been collected, and what is still to come. */
  lemma GatewayFrom(done: seq<RecordSet>, services: seq<Service>, zone: string, i: nat)
    requires i < |services|
    ensures done + GatewayRecords(services[i..], zone)
         == (if Counts(services[i]) then done + [ServiceRecord(services[i], zone)] else done)
            + GatewayRecords(services[i + 1..], zone)
  {}

  function ApiRecords(address: string): seq<RecordSet> {
    [ARecord("api", address), ARecord("apiserver", address)]
  }

  /**
   The whole list, or None where the code returns an error.  `address`, `ingress` and `gateway` are
   None when the lookup behind them failed.
   */
  function DesiredARecords(kind: Kind, zone: string, address: Option<string>,
                           ingress: Option<seq<Service>>, gateway: Option<seq<Service>>): Option<seq<RecordSet>>
  {
    if kind.AzureASOManagedCluster? then Some([])
    else if address.None? then None
    else if kind.AzureCluster? then Some(ApiRecords(address.value))
    else if ingress.None? then None
    else match IngressRecord(ingress.value, zone)
      case NotReady => None
      case NoIngress =>
        if gateway.None? then None
        else Some(ApiRecords(address.value) + GatewayRecords(gateway.value, zone))
      case Ingress(r) =>
        if gateway.None? then None
        else Some(ApiRecords(address.value) + [r] + GatewayRecords(gateway.value, zone))
  }

  /** An A set with one address and the common TTL. */
  predicate SingleAddress(d: RecordSet) {
    d.key.rtype.A? && d.props.ttl == RECORD_TTL && |d.props.addresses| == 1 && d.props.alias.None? && d.props.servers == []
  }

  lemma {:induction false} IngressRecordShape(services: seq<Service>, zone: string)
    ensures var r := IngressRecord(services, zone); r.Ingress? ==> SingleAddress(r.record)
  {
    if services != [] { IngressRecordShape(services[1..], zone); }
  }

  lemma {:induction false} GatewayRecordsShape(services: seq<Service>, zone: string)
    ensures forall d | d in GatewayRecords(services, zone) :: SingleAddress(d)
  {
    if services != [] { GatewayRecordsShape(services[1..], zone); }
  }

  /** Every desired A set of every kind of cluster has one address and TTL 300. */
  lemma DesiredShape(kind: Kind, zone: string, address: Option<string>,
                     ingress: Option<seq<Service>>, gateway: Option<seq<Service>>)
    ensures var desired := DesiredARecords(kind, zone, address, ingress, gateway);
            desired.Some? ==> forall d | d in desired.value :: SingleAddress(d)
  {
    if ingress.Some? { IngressRecordShape(ingress.value, zone); }
    if gateway.Some? { GatewayRecordsShape(gateway.value, zone); }
  }
}
