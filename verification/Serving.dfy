/** What a converged cluster zone answers (azure/services/dns/arecords.go, cnamerecords.go). */
module Serving {
  import opened AzureModel
  import opened DesiredRecords
  import opened RecordDiff
  import opened PublicRun
  import opened Convergence
  import opened Hostnames

  /** The parts of the desired list, kind by kind. */
  lemma DesiredByKind(s: Scope)
    requires s.DesiredA().Some?
    ensures s.kind.AzureASOManagedCluster? ==> s.DesiredA().value == []
    ensures !s.kind.AzureASOManagedCluster? ==> s.address.Some?
    ensures s.kind.AzureCluster? ==> s.DesiredA().value == ApiRecords(s.address.value)
    ensures s.kind.OtherKind? ==>
              && s.ingress.Some? && s.gateway.Some?
              && s.DesiredA().value == ApiRecords(s.address.value)
                                       + (IngressRecords(s.ingress.value, s.ClusterDomain())
                                          + GatewayRecords(s.gateway.value, s.ClusterDomain()))
  {
    DesiredFailsIff(s);
    if s.kind.OtherKind? {
      IngressCases(s.ingress.value, s.ClusterDomain());
      DesiredParts(s.ClusterDomain(), s.address.value, s.ingress.value, s.gateway.value, s.kind);
    }
  }

  /** The service's hostname is the record `name` of the zone, with its first address. */
  predicate Answers(records: Records, svc: Service, domain: string) {
    HOSTNAME in svc.annotations && |svc.ingress| > 0 &&
    At(records, RecordKey(A, RecordName(svc.annotations[HOSTNAME], domain))) == Some(Payload(300, [svc.ingress[0]], None, []))
  }

  lemma PublishedIsAnswered(records: Records, r: RecordSet, svc: Service, domain: string)
    requires Publishes(r, svc, domain) && Holds(records, r)
    ensures Answers(records, svc, domain)
  {}

  /**
   A converged zone answers every gateway service that counts, and the first selected ingress
   service, with the first address of the service.
   */
  lemma ConvergedZoneServesServices(s: Scope, az0: Azure, az: Azure)
    requires Sane(s) && Converged(s, az0, az) && s.kind.OtherKind?
    ensures s.ingress.Some? && s.gateway.Some?
    ensures forall svc | svc in s.gateway.value && Selected(svc) && |svc.ingress| > 0 && svc.ingress[0] != "" ::
              Answers(ZoneOf(s, az).records, svc, s.name + "." + s.baseDomain)
    ensures forall i | 0 <= i < |s.ingress.value| && Selected(s.ingress.value[i])
                       && (forall j | 0 <= j < i :: !Selected(s.ingress.value[j])) ::
              Answers(ZoneOf(s, az).records, s.ingress.value[i], s.name + "." + s.baseDomain)
  {
    DesiredByKind(s);
    var domain, records := s.ClusterDomain(), ZoneOf(s, az).records;
    var e, r := Eligible(s.gateway.value), GatewayRecords(s.gateway.value, domain);
    EligibleMeaning(s.gateway.value);
    GatewayOneToOne(s.gateway.value, domain);
    forall svc | svc in s.gateway.value && Selected(svc) && |svc.ingress| > 0 && svc.ingress[0] != ""
      ensures Answers(records, svc, domain)
    {
      assert svc in e;
      var i :| 0 <= i < |e| && e[i] == svc;
      assert r[i] in Goals(s);
      PublishedIsAnswered(records, r[i], svc, domain);
    }
    forall i | 0 <= i < |s.ingress.value| && Selected(s.ingress.value[i]) && (forall j | 0 <= j < i :: !Selected(s.ingress.value[j]))
      ensures Answers(records, s.ingress.value[i], domain)
    {
      IngressCases(s.ingress.value, domain);
      FirstIngressDecides(s.ingress.value, domain, i);
      var record := IngressRecord(s.ingress.value, domain).record;
      assert record in IngressRecords(s.ingress.value, domain) && record in Goals(s);
      PublishedIsAnswered(records, record, s.ingress.value[i], domain);
    }
  }

  /** A name that belongs to the operator in this zone. */
  ghost predicate Ours(s: Scope, k: RecordKey) {
    || k == RecordKey(CNAME, "*")
    || (!s.kind.AzureASOManagedCluster? && (k == RecordKey(A, "api") || k == RecordKey(A, "apiserver")))
    || (s.kind.OtherKind? && s.ingress.Some? && s.gateway.Some? && k.rtype.A?
        && exists svc | svc in s.ingress.value || svc in s.gateway.value ::
             Selected(svc) && RecordName(svc.annotations[HOSTNAME], s.name + "." + s.baseDomain) == k.name)
  }

  lemma GoalsAreOurs(s: Scope, d: RecordSet)
    requires s.DesiredA().Some? && d in Goals(s)
    ensures Ours(s, d.key)
  {
    DesiredByKind(s);
    if s.kind.OtherKind? {
      var domain := s.ClusterDomain();
      var ingress, r := IngressRecords(s.ingress.value, domain), GatewayRecords(s.gateway.value, domain);
      if d in ingress {
        IngressCases(s.ingress.value, domain);
        var i := FirstSelected(s.ingress.value);
        FirstIngressDecides(s.ingress.value, domain, i);
        assert s.ingress.value[i] in s.ingress.value;
      } else if d in r {
        var i :| 0 <= i < |r| && r[i] == d;
        GatewayOneToOne(s.gateway.value, domain);
        EligibleMeaning(s.gateway.value);
        assert Eligible(s.gateway.value)[i] in s.gateway.value;
      }
    }
  }

  /** Everything else in a converged zone is as it was at the start. */
  lemma ConvergedZoneKeepsTheRest(s: Scope, az0: Azure, az: Azure, k: RecordKey)
    requires Sane(s) && Converged(s, az0, az) && !Ours(s, k)
    ensures At(ZoneOf(s, az).records, k) == At(StartRecords(s, az0, az), k)
  {
    LastIsMember(Goals(s), k);
    if Last(Goals(s), k).Some? { GoalsAreOurs(s, RecordSet(k, Last(Goals(s), k).value)); }
    OverlayAt(StartRecords(s, az0, az), Goals(s), k);
  }
}
