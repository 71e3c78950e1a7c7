/** Desired A records from service annotations: names, order, and what an unready service does (azure/services/dns/arecords.go). */
module Hostnames {
  import opened AzureModel
  import opened DesiredRecords
  import opened RecordDiff
  import opened PublicRun

  predicate InZone(hostname: string, zone: string) {
    |zone| + 1 <= |hostname| && hostname[|hostname| - |zone| - 1..] == "." + zone
  }

  /** Trimming the zone and appending it again gives the hostname back exactly for in-zone hostnames. */
  lemma TrimRoundTrip(hostname: string, zone: string)
    ensures RecordName(hostname, zone) + "." + zone == hostname <==> InZone(hostname, zone)
    ensures !InZone(hostname, zone) ==> RecordName(hostname, zone) == hostname
  {}

  /** Every out-of-zone hostname collides with an in-zone one. */
  lemma OutOfZoneCollides(hostname: string, zone: string)
    requires !InZone(hostname, zone)
    ensures var other := hostname + "." + zone;
            other != hostname && InZone(other, zone) && RecordName(other, zone) == RecordName(hostname, zone)
  {}

  // ----- which services count -----

  function Eligible(services: seq<Service>): seq<Service> {
    if services == [] then []
    else (if Counts(services[0]) then [services[0]] else []) + Eligible(services[1..])
  }

  lemma {:induction false} EligibleMeaning(services: seq<Service>)
    ensures forall s :: s in Eligible(services) <==> s in services && Selected(s) && |s.ingress| > 0 && s.ingress[0] != ""
  {
    if services != [] {
      EligibleMeaning(services[1..]);
      assert services == [services[0]] + services[1..];
    }
  }

  /** The eligible services keep their order. */
  lemma {:induction false} EligibleSplit(p: seq<Service>, q: seq<Service>)
    ensures Eligible(p + q) == Eligible(p) + Eligible(q)
  {
    if p == [] {
      assert p + q == q;
    } else {
      EligibleSplit(p[1..], q);
      assert (p + q)[0] == p[0] && (p + q)[1..] == p[1..] + q;
    }
  }

  /** The A set of a hostname for the first address of a service. */
  predicate Publishes(r: RecordSet, s: Service, zone: string) {
    && HOSTNAME in s.annotations && |s.ingress| > 0
    && r == RecordSet(RecordKey(A, RecordName(s.annotations[HOSTNAME], zone)), Payload(300, [s.ingress[0]], None, []))
  }

  /** Gateway records match the eligible services one to one and in order; others are only skipped. */
  lemma {:induction false} GatewayOneToOne(services: seq<Service>, zone: string)
    ensures var e, r := Eligible(services), GatewayRecords(services, zone);
            |r| == |e| && forall i | 0 <= i < |e| :: Counts(e[i]) && Publishes(r[i], e[i], zone)
  {
    if services != [] {
      var first, rest := services[0], services[1..];
      GatewayOneToOne(rest, zone);
      var e, r := Eligible(rest), GatewayRecords(rest, zone);
      if Counts(first) {
        assert Eligible(services) == [first] + e && GatewayRecords(services, zone) == [ServiceRecord(first, zone)] + r;
        forall i | 0 <= i < |e| + 1
          ensures Counts(([first] + e)[i]) && Publishes(([ServiceRecord(first, zone)] + r)[i], ([first] + e)[i], zone)
        {
          if i > 0 { assert ([first] + e)[i] == e[i - 1] && ([ServiceRecord(first, zone)] + r)[i] == r[i - 1]; }
        }
      } else {
        assert Eligible(services) == e && GatewayRecords(services, zone) == r;
      }
    }
  }

  /** The first selected ingress service decides, whatever follows it. */
  lemma {:induction false} FirstIngressDecides(services: seq<Service>, zone: string, i: nat)
    requires i < |services| && Selected(services[i]) && forall j | 0 <= j < i :: !Selected(services[j])
    ensures var r := IngressRecord(services, zone);
            if |services[i].ingress| > 0 && services[i].ingress[0] != ""
            then r.Ingress? && Publishes(r.record, services[i], zone) else r.NotReady?
  {
    if i > 0 { FirstIngressDecides(services[1..], zone, i - 1); }
  }

  /** Some service is selected, and the first such one has no address. */
  predicate FirstUnready(services: seq<Service>) {
    exists i | 0 <= i < |services| :: Selected(services[i]) && (|services[i].ingress| > 0 ==> services[i].ingress[0] == "")
                                      && forall j | 0 <= j < i :: !Selected(services[j])
  }

  lemma {:induction false} IngressCases(services: seq<Service>, zone: string)
    ensures IngressRecord(services, zone).NotReady? <==> FirstUnready(services)
    ensures IngressRecord(services, zone).NoIngress? <==> forall s | s in services :: !Selected(s)
  {
    if forall s | s in services :: !Selected(s) {
      NoneSelected(services, zone);
    } else {
      var i := FirstSelected(services);
      FirstIngressDecides(services, zone, i);
    }
  }

  lemma {:induction false} NoneSelected(services: seq<Service>, zone: string)
    requires forall s | s in services :: !Selected(s)
    ensures IngressRecord(services, zone).NoIngress?
  {
    if services != [] { NoneSelected(services[1..], zone); }
  }

  lemma {:induction false} FirstSelected(services: seq<Service>) returns (i: nat)
    requires exists s | s in services :: Selected(s)
    ensures i < |services| && Selected(services[i]) && forall j | 0 <= j < i :: !Selected(services[j])
  {
    if Selected(services[0]) {
      i := 0;
    } else {
      i := FirstSelected(services[1..]);
      i := i + 1;
    }
  }

  /** When the desired A sets cannot be determined: never for an AzureASOManagedCluster, else exactly in these cases. */
  lemma DesiredFailsIff(s: Scope)
    ensures s.DesiredA().None? <==>
              && !s.kind.AzureASOManagedCluster?
              && (|| s.address.None?
                  || (s.kind.OtherKind? && (s.ingress.None? || s.gateway.None? || FirstUnready(s.ingress.value))))
  {
    if s.ingress.Some? { IngressCases(s.ingress.value, s.ClusterDomain()); }
  }

  /** A run with nothing to desire never gets to its record writes. */
  predicate BeforeRecords(pc: Pc) { !pc.WriteSets? && !pc.DeleteNs? && !pc.DeleteGroup? && pc != Stopped(true) }

  lemma {:induction false} NoDesireNoRecordWrites(s: Scope, pc: Pc, az: Azure, outcomes: seq<Outcome>)
    requires s.DesiredA().None? && BeforeRecords(pc)
    ensures forall x | x in Writes(s, pc, az, outcomes) :: !x.WriteSets?
    ensures Steps(s, pc, az, outcomes).0 != Stopped(true)
    decreases outcomes
  {
    if outcomes != [] {
      var o := outcomes[0];
      assert BeforeRecords(Next(s, pc, az, o));
      NoDesireNoRecordWrites(s, Next(s, pc, az, o), Effect(s, pc, az, o), outcomes[1..]);
    }
  }

  /**
   All or nothing: if the first selected ingress service has no address yet, no run of a cluster
   that is neither AzureCluster nor AzureASOManagedCluster writes any A or CNAME set or succeeds.
   */
  lemma UnreadyIngressBlocksAllRecords(s: Scope, az: Azure, outcomes: seq<Outcome>, i: nat)
    requires s.kind.OtherKind? && s.ingress.Some? && i < |s.ingress.value|
    requires Selected(s.ingress.value[i]) && !HasAddress(s.ingress.value[i])
    requires forall j | 0 <= j < i :: !Selected(s.ingress.value[j])
    ensures forall x | x in Writes(s, Begin(s, false), az, outcomes) :: !x.WriteSets?
    ensures Steps(s, Begin(s, false), az, outcomes).0 != Stopped(true)
  {
    FirstIngressDecides(s.ingress.value, s.ClusterDomain(), i);
    NoDesireNoRecordWrites(s, Begin(s, false), az, outcomes);
  }

  /** No A set, and no set but the wildcard, is scheduled from this point on. */
  predicate WildcardAtMost(s: Scope, pc: Pc) {
    !pc.DeleteNs? && !pc.DeleteGroup? && (pc.WriteSets? ==> pc.pending == s.DesiredCname())
  }

  /** Runs of an AzureASOManagedCluster write no A sets at all; the wildcard is all they put into the zone. */
  lemma {:induction false} AksRunsWriteNoASets(s: Scope, pc: Pc, az: Azure, outcomes: seq<Outcome>)
    requires s.kind.AzureASOManagedCluster? && WildcardAtMost(s, pc)
    ensures forall x | x in Writes(s, pc, az, outcomes) && x.WriteSets? :: x.pending == [WildcardRecord(s.WildcardFQDN())]
    decreases outcomes
  {
    if outcomes != [] {
      var o := outcomes[0];
      assert s.DesiredCname()[1..] == [];
      if pc.WriteNs? { AksDiff(s, pc.listing); }
      AksRunsWriteNoASets(s, Next(s, pc, az, o), Effect(s, pc, az, o), outcomes[1..]);
    }
  }

  lemma AksDiff(s: Scope, listing: seq<RecordSet>)
    requires s.kind.AzureASOManagedCluster?
    ensures Diff(s, listing) == Stopped(true) || Diff(s, listing) == WriteSets(s.DesiredCname())
  {
    assert s.DesiredA() == Some([]) && Missing([], listing) == [];
    assert s.DesiredCname()[1..] == [];
    MissingFrom([], s.DesiredCname(), listing, 0);
    assert s.DesiredCname()[0..] == s.DesiredCname() && s.DesiredCname()[0 + 1..] == [];
  }

  // ----- distinct names -----

  /** The hostnames that end up in the desired list, in its order. */
  function Hosts(ingress: seq<Service>, gateway: seq<Service>): seq<string> {
    GatewayOneToOne(gateway, "");
    IngressHosts(ingress) + HostsOf(Eligible(gateway))
  }

  function IngressHosts(services: seq<Service>): seq<string> {
    if services == [] then []
    else if Selected(services[0]) then [services[0].annotations[HOSTNAME]]
    else IngressHosts(services[1..])
  }

  function Host(s: Service): string
    requires Counts(s)
  {
    s.annotations[HOSTNAME]
  }

  function HostsOf(services: seq<Service>): (r: seq<string>)
    requires forall i | 0 <= i < |services| :: Counts(services[i])
    ensures |r| == |services| && forall i | 0 <= i < |r| :: r[i] == Host(services[i])
  {
    if services == [] then []
    else [Host(services[0])] + HostsOf(services[1..])
  }

  predicate Distinct(names: seq<string>) {
    forall i, j | 0 <= i < j < |names| :: names[i] != names[j]
  }

  lemma {:induction false} IngressName(services: seq<Service>, zone: string)
    ensures match IngressRecord(services, zone)
            case NotReady => true
            case NoIngress => IngressHosts(services) == []
            case Ingress(r) => |IngressHosts(services)| == 1 && r.key == RecordKey(A, RecordName(IngressHosts(services)[0], zone))
  {
    if services != [] { IngressName(services[1..], zone); }
  }

  /** The keys of the records are the trimmed hostnames, position by position. */
  predicate Named(records: seq<RecordSet>, hosts: seq<string>, zone: string) {
    |records| == |hosts| && forall i | 0 <= i < |hosts| :: records[i].key == RecordKey(A, RecordName(hosts[i], zone))
  }

  lemma NamedConcat(p: seq<RecordSet>, h: seq<string>, q: seq<RecordSet>, k: seq<string>, zone: string)
    requires Named(p, h, zone) && Named(q, k, zone)
    ensures Named(p + q, h + k, zone)
  {}

  lemma GatewayNamed(gateway: seq<Service>, zone: string)
    ensures forall i | 0 <= i < |Eligible(gateway)| :: Counts(Eligible(gateway)[i])
    ensures Named(GatewayRecords(gateway, zone), HostsOf(Eligible(gateway)), zone)
  {
    GatewayOneToOne(gateway, zone);
  }

  function IngressRecords(ingress: seq<Service>, zone: string): seq<RecordSet> {
    var r := IngressRecord(ingress, zone);
    if r.Ingress? then [r.record] else []
  }

  lemma IngressNamed(ingress: seq<Service>, zone: string)
    requires !IngressRecord(ingress, zone).NotReady?
    ensures Named(IngressRecords(ingress, zone), IngressHosts(ingress), zone)
  {
    IngressName(ingress, zone);
  }

  lemma DesiredParts(zone: string, address: string, ingress: seq<Service>, gateway: seq<Service>, kind: Kind)
    requires kind.OtherKind? && !IngressRecord(ingress, zone).NotReady?
    ensures DesiredARecords(kind, zone, Some(address), Some(ingress), Some(gateway))
         == Some(ApiRecords(address) + (IngressRecords(ingress, zone) + GatewayRecords(gateway, zone)))
  {
    var g := GatewayRecords(gateway, zone);
    assert ApiRecords(address) + IngressRecords(ingress, zone) + g == ApiRecords(address) + (IngressRecords(ingress, zone) + g);
    assert ApiRecords(address) + ([] + g) == ApiRecords(address) + g;
  }

  /** The desired list is api, apiserver, then the trimmed hostnames in order. */
  lemma DesiredKeys(zone: string, address: string, ingress: seq<Service>, gateway: seq<Service>, kind: Kind)
    requires kind.OtherKind? && !IngressRecord(ingress, zone).NotReady?
    ensures var desired := DesiredARecords(kind, zone, Some(address), Some(ingress), Some(gateway));
            && desired.Some? && |desired.value| >= 2 && desired.value[..2] == ApiRecords(address)
            && Named(desired.value[2..], Hosts(ingress, gateway), zone)
  {
    DesiredParts(zone, address, ingress, gateway, kind);
    IngressNamed(ingress, zone);
    GatewayNamed(gateway, zone);
    var rest := IngressRecords(ingress, zone) + GatewayRecords(gateway, zone);
    NamedConcat(IngressRecords(ingress, zone), IngressHosts(ingress), GatewayRecords(gateway, zone), HostsOf(Eligible(gateway)), zone);
    assert (ApiRecords(address) + rest)[2..] == rest && (ApiRecords(address) + rest)[..2] == ApiRecords(address);
  }

  lemma SameNameIffSameHost(p: string, q: string, zone: string)
    requires InZone(p, zone) && InZone(q, zone)
    ensures RecordName(p, zone) == RecordName(q, zone) <==> p == q
  {}

  /**
   For in-zone hostnames the desired names are distinct exactly if the hostnames are pairwise
   different and none is the api or apiserver name of the zone.
   */
  lemma DistinctIffHostsDistinct(zone: string, address: string, ingress: seq<Service>, gateway: seq<Service>, kind: Kind)
    requires kind.OtherKind? && !IngressRecord(ingress, zone).NotReady?
    requires forall h | h in Hosts(ingress, gateway) :: InZone(h, zone)
    ensures var desired := DesiredARecords(kind, zone, Some(address), Some(ingress), Some(gateway)).value;
            DistinctKeys(desired) <==>
              && Distinct(Hosts(ingress, gateway))
              && "api." + zone !in Hosts(ingress, gateway) && "apiserver." + zone !in Hosts(ingress, gateway)
  {
    DesiredKeys(zone, address, ingress, gateway, kind);
    var desired := DesiredARecords(kind, zone, Some(address), Some(ingress), Some(gateway)).value;
    HostsAgainstKeys(desired[2..], Hosts(ingress, gateway), zone);
    assert desired == ApiRecords(address) + desired[2..];
    ApiFirst(address, desired[2..]);
  }

  lemma ReservedName(hostname: string, name: string, zone: string)
    requires InZone(hostname, zone)
    ensures RecordName(hostname, zone) == name <==> hostname == name + "." + zone
  {}

  predicate NoneNamed(records: seq<RecordSet>, name: string) {
    forall i | 0 <= i < |records| :: records[i].key != RecordKey(A, name)
  }

  lemma ApiFirst(address: string, rest: seq<RecordSet>)
    ensures DistinctKeys(ApiRecords(address) + rest) <==>
            DistinctKeys(rest) && NoneNamed(rest, "api") && NoneNamed(rest, "apiserver")
  {
    var all := ApiRecords(address) + rest;
    assert all[0].key == RecordKey(A, "api") && all[1].key == RecordKey(A, "apiserver");
    assert forall i | 0 <= i < |rest| :: all[i + 2] == rest[i];
    if DistinctKeys(rest) && NoneNamed(rest, "api") && NoneNamed(rest, "apiserver") {
      forall i, j | 0 <= i < j < |all| ensures all[i].key != all[j].key {
        if j >= 2 { assert all[j] == rest[j - 2]; }
        if i >= 2 { assert all[i] == rest[i - 2]; }
      }
    }
    if DistinctKeys(all) {
      forall i | 0 <= i < |rest| ensures rest[i].key != RecordKey(A, "api") && rest[i].key != RecordKey(A, "apiserver") {
        assert all[0].key != all[i + 2].key && all[1].key != all[i + 2].key;
      }
      forall i, j | 0 <= i < j < |rest| ensures rest[i].key != rest[j].key { assert all[i + 2].key != all[j + 2].key; }
    }
  }

  lemma HostsAgainstKeys(records: seq<RecordSet>, h: seq<string>, zone: string)
    requires Named(records, h, zone) && forall x | x in h :: InZone(x, zone)
    ensures DistinctKeys(records) <==> Distinct(h)
    ensures NoneNamed(records, "api") <==> "api." + zone !in h
    ensures NoneNamed(records, "apiserver") <==> "apiserver." + zone !in h
  {
    forall i, j | 0 <= i < j < |h| ensures records[i].key == records[j].key <==> h[i] == h[j] {
      assert h[i] in h && h[j] in h;
      SameNameIffSameHost(h[i], h[j], zone);
    }
    forall i | 0 <= i < |h|
      ensures records[i].key == RecordKey(A, "api") <==> h[i] == "api." + zone
      ensures records[i].key == RecordKey(A, "apiserver") <==> h[i] == "apiserver." + zone
    {
      assert h[i] in h;
      ReservedName(h[i], "api", zone);
      ReservedName(h[i], "apiserver", zone);
    }
  }
}
