/**
 The public DNS service as it is written, over a client whose calls follow an oracle; each method
 is proved to take exactly the steps of the run machine (azure/services/dns).
 */
module PublicService {
  import opened AzureModel
  import opened DesiredRecords
  import opened PublicRun
  import opened RecordDiff
  import opened Hostnames

  datatype CallError = NotFound | ParentNotFound | OtherError

  datatype Answer<+T> = Ok(value: T) | Err(error: CallError)

  /** A string behind an address. */
  class StringCell {
    const value: string
    constructor (value: string)
      ensures this.value == value
    {
      this.value := value;
    }
  }

  /** A record set as decoded from a response: its name has an address of its own. */
  datatype DecodedSet = DecodedSet(name: StringCell, record: RecordSet)

  /** A record set of the cluster zone, with the one property that the A diff erases in place. */
  datatype ListedSet = ListedSet(record: RecordSet, provisioningState: Option<string>)

  function Sets(listed: seq<ListedSet>): (r: seq<RecordSet>)
    ensures |r| == |listed| && forall i | 0 <= i < |r| :: r[i] == listed[i].record
  {
    seq(|listed|, i requires 0 <= i < |listed| => listed[i].record)
  }

  class AzureClient {
    var groups: map<GroupId, Group>
    var zones: map<ZoneId, Zone>
    var clock: nat
    const oracle: nat -> Outcome

    constructor (az: Azure, oracle: nat -> Outcome)
      ensures State() == az && clock == 0 && this.oracle == oracle
    {
      groups, zones, clock := az.groups, az.zones, 0;
      this.oracle := oracle;
    }

    function State(): Azure reads this { Azure(groups, zones) }

    method GetResourceGroup(g: GroupId) returns (r: Answer<Group>)
      modifies this`clock
      ensures clock == old(clock) + 1
      ensures r == if !oracle(old(clock)).reply.Done? then Err(OtherError)
                   else if g in groups then Ok(groups[g]) else Err(NotFound)
    {
      var o := oracle(clock);
      clock := clock + 1;
      if !o.reply.Done? { return Err(OtherError); }
      r := if g in groups then Ok(groups[g]) else Err(NotFound);
    }

    method CreateOrUpdateResourceGroup(g: GroupId, group: Group) returns (ok: bool)
      modifies this
      ensures clock == old(clock) + 1
      ensures ok == oracle(old(clock)).reply.Done?
      ensures State() == if oracle(old(clock)).reply.Failed? then old(State()) else PutGroup(old(State()), g, group)
    {
      var o := oracle(clock);
      clock := clock + 1;
      if !o.reply.Failed? { groups := groups[g := group]; }
      ok := o.reply.Done?;
    }

    method DeleteResourceGroup(g: GroupId) returns (r: Answer<()>)
      modifies this
      ensures clock == old(clock) + 1
      ensures r == if !oracle(old(clock)).reply.Done? then Err(OtherError)
                   else if g in old(groups) then Ok(()) else Err(NotFound)
      ensures State() == if oracle(old(clock)).reply.Failed? then old(State()) else DropGroup(old(State()), g)
    {
      var o := oracle(clock);
      clock := clock + 1;
      r := if !o.reply.Done? then Err(OtherError) else if g in groups then Ok(()) else Err(NotFound);
      if !o.reply.Failed? {
        groups := groups - {g};
        zones := map z | z in zones && z.group != g :: zones[z];
      }
    }

    method GetZone(z: ZoneId) returns (r: Answer<Zone>)
      modifies this`clock
      ensures clock == old(clock) + 1
      ensures r == if !oracle(old(clock)).reply.Done? then Err(OtherError)
                   else if z in zones then Ok(zones[z]) else Err(NotFound)
    {
      var o := oracle(clock);
      clock := clock + 1;
      if !o.reply.Done? { return Err(OtherError); }
      r := if z in zones then Ok(zones[z]) else Err(NotFound);
    }

    method CreateOrUpdateZone(z: ZoneId) returns (ok: bool)
      modifies this
      ensures clock == old(clock) + 1
      ensures ok == (oracle(old(clock)).reply.Done? && z.group in old(groups))
      ensures State() == if oracle(old(clock)).reply.Failed? then old(State())
                         else PutZone(old(State()), z, oracle(old(clock)).servers)
    {
      var o := oracle(clock);
      clock := clock + 1;
      ok := o.reply.Done? && z.group in groups;
      if !o.reply.Failed? && z.group in groups && z !in zones {
        zones := zones[z := Zone(o.servers, ApexRecords(o.servers))];
      }
    }

    /** The listing of a cluster zone, in the order the oracle picks. */
    method ListRecordSets(z: ZoneId) returns (r: Answer<array<ListedSet>>)
      modifies this`clock
      ensures clock == old(clock) + 1
      ensures r.Ok? ==> fresh(r.value)
      ensures var o := oracle(old(clock));
              if !o.reply.Done? || z.group !in groups then r == Err(OtherError)
              else if z !in zones then r == Err(ParentNotFound)
              else if !IsListing(zones[z].records, o.listing) then r == Err(OtherError)
              else r.Ok? && Sets(r.value[..]) == o.listing
    {
      var o := oracle(clock);
      clock := clock + 1;
      if !o.reply.Done? || z.group !in groups { return Err(OtherError); }
      if z !in zones { return Err(ParentNotFound); }
      if !IsListing(zones[z].records, o.listing) { return Err(OtherError); }
      var listing := o.listing;
      var listed := new ListedSet[|listing|];
      for i := 0 to |listing|
        invariant clock == old(clock) + 1 && forall j | 0 <= j < i :: listed[j].record == listing[j]
      {
        listed[i] := ListedSet(listing[i], Some("Succeeded"));
      }
      assert Sets(listed[..]) == listing;
      r := Ok(listed);
    }

    /** The listing of the base zone: freshly decoded objects, in no particular order. */
    method ListBaseRecordSets(z: ZoneId) returns (r: Answer<seq<DecodedSet>>)
      modifies this`clock
      ensures clock == old(clock) + 1
      ensures r.Ok? <==> oracle(old(clock)).reply.Done? && z in zones
      ensures r.Ok? ==> forall d | d in r.value ::
                fresh(d.name) && d.name.value == d.record.key.name && Holds(zones[z].records, d.record)
      ensures r.Ok? ==> forall k | k in zones[z].records :: exists d | d in r.value :: d.record.key == k
    {
      var o := oracle(clock);
      clock := clock + 1;
      if !o.reply.Done? || z !in zones { return Err(OtherError); }
      var records := zones[z].records;
      var left := records.Keys;
      var decoded: seq<DecodedSet> := [];
      while left != {}
        invariant clock == old(clock) + 1 && left <= records.Keys
        invariant forall d | d in decoded :: fresh(d.name) && d.name.value == d.record.key.name && Holds(records, d.record)
        invariant forall k | k in records && k !in left :: exists d | d in decoded :: d.record.key == k
      {
        var k :| k in left;
        var cell := new StringCell(k.name);
        var entry := DecodedSet(cell, RecordSet(k, records[k]));
        ghost var before := decoded;
        decoded := decoded + [entry];
        left := left - {k};
        assert entry in decoded && forall d | d in before :: d in decoded;
      }
      r := Ok(decoded);
    }

    method CreateOrUpdateRecordSet(z: ZoneId, e: RecordSet) returns (ok: bool)
      modifies this
      ensures clock == old(clock) + 1
      ensures ok == (oracle(old(clock)).reply.Done? && z in old(zones))
      ensures State() == if oracle(old(clock)).reply.Failed? then old(State()) else PutRecord(old(State()), z, e)
    {
      var o := oracle(clock);
      clock := clock + 1;
      ok := o.reply.Done? && z in zones;
      if !o.reply.Failed? && z in zones {
        zones := zones[z := zones[z].(records := zones[z].records[e.key := e.props])];
      }
    }

    /** Deleting an absent record set succeeds. */
    method DeleteRecordSet(z: ZoneId, k: RecordKey) returns (ok: bool)
      modifies this
      ensures clock == old(clock) + 1
      ensures ok == (oracle(old(clock)).reply.Done? && z in old(zones))
      ensures State() == if oracle(old(clock)).reply.Failed? then old(State()) else DropRecord(old(State()), z, k)
    {
      var o := oracle(clock);
      clock := clock + 1;
      ok := o.reply.Done? && z in zones;
      if !o.reply.Failed? && z in zones {
        zones := zones[z := zones[z].(records := zones[z].records - {k})];
      }
    }
  }

  // ----- helpers with loops of their own -----

  method ResourceGroupTagsEqual(existingTags: map<string, string>, newTags: map<string, string>) returns (equal: bool)
    ensures equal <==> existingTags == newTags
  {
    if |existingTags| != |newTags| { return false; }
    var left := newTags.Keys;
    while left != {}
      invariant left <= newTags.Keys
      invariant forall k | k in newTags && k !in left :: k in existingTags && existingTags[k] == newTags[k]
    {
      var key :| key in left;
      if key !in existingTags || existingTags[key] != newTags[key] { return false; }
      left := left - {key};
    }
    SameSizeSubset(newTags.Keys, existingTags.Keys);
    return true;
  }

  lemma SameSizeSubset(a: set<string>, b: set<string>)
    requires a <= b && |a| == |b|
    ensures a == b
  {
    if a != b {
      assert !(b <= a);
      var x :| x in b && x !in a;
      assert |a| <= |b - {x}| by { SubsetSize(a, b - {x}); }
    }
  }

  lemma {:induction false} SubsetSize(a: set<string>, b: set<string>)
    requires a <= b
    ensures |a| <= |b|
  {
    if a != {} {
      var x :| x in a;
      SubsetSize(a - {x}, b - {x});
    }
  }

  method MergeResourceTags(existingTags: map<string, string>, newTags: map<string, string>)
    returns (mergedTags: map<string, string>)
    ensures mergedTags == existingTags + newTags
  {
    mergedTags := map[];
    var left := existingTags.Keys;
    while left != {}
      invariant left <= existingTags.Keys
      invariant mergedTags == map k | k in existingTags && k !in left :: existingTags[k]
    {
      var key :| key in left;
      mergedTags := mergedTags[key := existingTags[key]];
      left := left - {key};
    }
    assert mergedTags == existingTags;
    left := newTags.Keys;
    while left != {}
      invariant left <= newTags.Keys
      invariant mergedTags == existingTags + map k | k in newTags && k !in left :: newTags[k]
    {
      var key :| key in left;
      mergedTags := mergedTags[key := newTags[key]];
      left := left - {key};
    }
  }

  /** The loop over the base zone's listing: the address of a decoded name is never the cluster's own. */
  method ClusterNsRecordExists(listing: seq<DecodedSet>, clusterName: StringCell) returns (found: bool)
    ensures found <==> exists d | d in listing :: d.name == clusterName && |d.record.props.servers| > 0
  {
    found := false;
    for i := 0 to |listing|
      invariant found <==> exists d | d in listing[..i] :: d.name == clusterName && |d.record.props.servers| > 0
    {
      assert listing[..i + 1] == listing[..i] + [listing[i]];
      if listing[i].name == clusterName {
        if |listing[i].record.props.servers| > 0 { found := true; }
      }
    }
    assert listing[..|listing|] == listing;
  }

  /** The three guards both service loops start with. */
  method IsSelected(svc: Service) returns (selected: bool)
    ensures selected == Selected(svc)
    ensures selected <==>
              && "giantswarm.io/external-dns" in svc.annotations && svc.annotations["giantswarm.io/external-dns"] == "managed"
              && "external-dns.alpha.kubernetes.io/hostname" in svc.annotations
              && svc.annotations["external-dns.alpha.kubernetes.io/hostname"] != "" && svc.loadBalancer
  {
    if MANAGED !in svc.annotations || svc.annotations[MANAGED] != "managed" { return false; }
    if HOSTNAME !in svc.annotations || svc.annotations[HOSTNAME] == "" { return false; }
    if !svc.loadBalancer { return false; }
    return true;
  }

  method GetIngressARecord(services: seq<Service>, zone: string) returns (r: IngressResult)
    ensures r == IngressRecord(services, zone)
    ensures r.NotReady? <==> FirstUnready(services)
    ensures r.NoIngress? <==> forall svc | svc in services :: !Selected(svc)
    ensures r.Ingress? ==> exists i | 0 <= i < |services| ::
              Selected(services[i]) && (forall j | 0 <= j < i :: !Selected(services[j])) && Publishes(r.record, services[i], zone)
  {
    IngressCases(services, zone);
    for i := 0 to |services|
      invariant IngressRecord(services[i..], zone) == IngressRecord(services, zone)
      invariant forall j | 0 <= j < i :: !Selected(services[j])
    {
      var svc := services[i];
      assert services[i..][0] == svc && services[i..][1..] == services[i + 1..];
      var selected := IsSelected(svc);
      if !selected { continue; }
      if |svc.ingress| < 1 || svc.ingress[0] == "" { return NotReady; }
      return Ingress(ARecord(RecordName(svc.annotations[HOSTNAME], zone), svc.ingress[0]));
    }
    return NoIngress;
  }

  method GetGatewayARecords(services: seq<Service>, zone: string) returns (recordSets: seq<RecordSet>)
    ensures recordSets == GatewayRecords(services, zone)
    ensures |recordSets| == |Eligible(services)|
    ensures forall i | 0 <= i < |recordSets| :: Publishes(recordSets[i], Eligible(services)[i], zone)
  {
    GatewayOneToOne(services, zone);
    recordSets := [];
    for i := 0 to |services|
      invariant recordSets + GatewayRecords(services[i..], zone) == GatewayRecords(services, zone)
    {
      var svc := services[i];
      GatewayFrom(recordSets, services, zone, i);
      var selected := IsSelected(svc);
      if !selected { continue; }
      if |svc.ingress| < 1 || svc.ingress[0] == "" { continue; }
      recordSets := recordSets + [ServiceRecord(svc, zone)];
    }
  }

  /** slices.IndexFunc on the names. */
  method IndexOfName(current: array<ListedSet>, name: string) returns (index: int)
    ensures -1 <= index < current.Length
    ensures Lookup(Sets(current[..]), name) == if index == -1 then None else Some(current[index].record)
  {
    ghost var sets := Sets(current[..]);
    for i := 0 to current.Length
      invariant Lookup(sets, name) == Lookup(sets[i..], name)
    {
      assert sets[i..][0] == current[i].record && sets[i..][1..] == sets[i + 1..];
      if current[i].record.key.name == name { return i; }
    }
    return -1;
  }

  class DnsService {
    const scope: Scope
    const client: AzureClient
    const clusterName: StringCell

    constructor (scope: Scope, client: AzureClient, clusterName: StringCell)
      ensures this.scope == scope && this.client == client && this.clusterName == clusterName
    {
      this.scope, this.client, this.clusterName := scope, client, clusterName;
    }

    /** The calls made since the old state are the steps of the machine from `from` to `to`. */
    twostate predicate Took(from: Pc, to: Pc)
      reads client
    {
      Reaches(scope, client.oracle, from, old(client.State()), old(client.clock), to, client.State(), client.clock)
    }

    method UpdateClusterResourceGroup(existing: Group) returns (ok: bool)
      modifies client
      ensures Took(if existing.tags == scope.tags then ListZone else WriteGroup(existing.(tags := existing.tags + scope.tags)),
                   if ok then ListZone else Stopped(false))
    {
      var equal := ResourceGroupTagsEqual(existing.tags, scope.tags);
      if equal { return true; }
      var merged := MergeResourceTags(existing.tags, scope.tags);
      OneStep(scope, client.oracle, WriteGroup(existing.(tags := merged)), client.State(), client.clock);
      ok := client.CreateOrUpdateResourceGroup(scope.ResourceGroup(), existing.(tags := merged));
    }

    method CreateClusterResourceGroup() returns (ok: bool)
      modifies client
      ensures Took(GetGroup, if ok then ListZone else Stopped(false))
    {
      ghost var az, t, oracle := client.State(), client.clock, client.oracle;
      OneStep(scope, oracle, GetGroup, az, t);
      var existing := client.GetResourceGroup(scope.ResourceGroup());
      ghost var pc := Next(scope, GetGroup, az, oracle(t));
      if existing.Ok? {
        ok := UpdateClusterResourceGroup(existing.value);
        ReachesOn(scope, oracle, GetGroup, az, t, pc, az, t + 1, if ok then ListZone else Stopped(false), client.State(), client.clock);
        return;
      } else if existing.error != NotFound {
        return false;
      }
      var location := scope.location;
      if location == "" {
        if scope.managementGroup.None? { return false; }
        OneStep(scope, oracle, GetManagementGroup, az, t + 1);
        var management := client.GetResourceGroup(GroupId(scope.subscription, scope.managementGroup.value));
        ReachesOn(scope, oracle, GetGroup, az, t, pc, az, t + 1, Next(scope, pc, az, oracle(t + 1)), az, t + 2);
        pc := Next(scope, pc, az, oracle(t + 1));
        if management.Err? { return false; }
        location := management.value.location;
      }
      assert pc == WriteGroup(Group(location, scope.tags));
      OneStep(scope, oracle, pc, az, client.clock);
      ghost var t1 := client.clock;
      ok := client.CreateOrUpdateResourceGroup(scope.ResourceGroup(), Group(location, scope.tags));
      ReachesOn(scope, oracle, GetGroup, az, t, pc, az, t1, if ok then ListZone else Stopped(false), client.State(), client.clock);
    }

    method GetDesiredARecords() returns (desired: Option<seq<RecordSet>>)
      ensures desired == scope.DesiredA()
    {
      if scope.kind.AzureASOManagedCluster? { return Some([]); }
      if scope.address.None? { return None; }
      var recordSets := [ARecord("api", scope.address.value), ARecord("apiserver", scope.address.value)];
      if !scope.kind.AzureCluster? {
        if scope.ingress.None? { return None; }
        var ingressRecord := GetIngressARecord(scope.ingress.value, scope.ClusterDomain());
        if ingressRecord.NotReady? { return None; }
        if ingressRecord.Ingress? { recordSets := recordSets + [ingressRecord.record]; }
        if scope.gateway.None? { return None; }
        var gatewayRecords := GetGatewayARecords(scope.gateway.value, scope.ClusterDomain());
        recordSets := recordSets + gatewayRecords;
      }
      return Some(recordSets);
    }

    /** Compares one desired A set, erasing the provisioning state of its counterpart in place. */
    method CompareASet(d: RecordSet, current: array<ListedSet>) returns (needed: bool)
      requires d.key.rtype.A?
      modifies current
      ensures needed == NeedsWrite(d, old(Sets(current[..])))
      ensures Sets(current[..]) == old(Sets(current[..]))
    {
      var index := IndexOfName(current, d.key.name);
      if index == -1 { return true; }
      current[index] := current[index].(provisioningState := None);
      assert Sets(current[..]) == old(Sets(current[..]));
      if d.props.addresses != current[index].record.props.addresses { return true; }
      return d.props.ttl != current[index].record.props.ttl;
    }

    /** Provisioning states of the listing are erased; nothing else of it changes. */
    method CalculateMissingARecords(current: array<ListedSet>) returns (missing: Option<seq<RecordSet>>)
      modifies current
      ensures missing == if scope.DesiredA().None? then None
                         else Some(Missing(scope.DesiredA().value, old(Sets(current[..]))))
      ensures Sets(current[..]) == old(Sets(current[..]))
    {
      var desired := GetDesiredARecords();
      if desired.None? { return None; }
      var sets := desired.value;
      ghost var listing := Sets(current[..]);
      DesiredShape(scope.kind, scope.ClusterDomain(), scope.address, scope.ingress, scope.gateway);
      var recordsToCreate := MissingSets(sets, current);
      return Some(recordsToCreate);
    }

    method MissingSets(sets: seq<RecordSet>, current: array<ListedSet>) returns (recordsToCreate: seq<RecordSet>)
      requires forall d | d in sets :: d.key.rtype.A?
      modifies current
      ensures recordsToCreate == Missing(sets, old(Sets(current[..])))
      ensures Sets(current[..]) == old(Sets(current[..]))
    {
      ghost var listing := Sets(current[..]);
      recordsToCreate := [];
      for i := 0 to |sets|
        invariant Sets(current[..]) == listing
        invariant recordsToCreate + Missing(sets[i..], listing) == Missing(sets, listing)
      {
        MissingFrom(recordsToCreate, sets, listing, i);
        var needed := CompareASet(sets[i], current);
        if needed { recordsToCreate := recordsToCreate + [sets[i]]; }
      }
      assert sets[|sets|..] == [];
    }

    method CalculateMissingCnameRecords(current: array<ListedSet>) returns (recordsToCreate: seq<RecordSet>)
      ensures recordsToCreate == Missing(scope.DesiredCname(), Sets(current[..]))
    {
      var sets := scope.DesiredCname();
      ghost var listing := Sets(current[..]);
      recordsToCreate := [];
      for i := 0 to |sets|
        invariant recordsToCreate + Missing(sets[i..], listing) == Missing(sets, listing)
      {
        var d := sets[i];
        MissingFrom(recordsToCreate, sets, listing, i);
        var index := IndexOfName(current, d.key.name);
        if index < 0 {
          recordsToCreate := recordsToCreate + [d];
        } else if current[index].record.props.alias != d.props.alias {
          recordsToCreate := recordsToCreate + [d];
        } else if current[index].record.props.ttl != d.props.ttl {
          recordsToCreate := recordsToCreate + [d];
        }
      }
    }

    /** The loop of remote writes shared by both update functions; it stops at the first failure. */
    method CreateAll(records: seq<RecordSet>, ghost later: seq<RecordSet>) returns (ok: bool)
      modifies client
      ensures Took(WriteRest(records + later), if ok then WriteRest(later) else Stopped(false))
    {
      ghost var az, t, oracle := client.State(), client.clock, client.oracle;
      ghost var start := WriteRest(records + later);
      assert records[0..] + later == records + later;
      for i := 0 to |records|
        invariant Reaches(scope, oracle, start, az, t, WriteRest(records[i..] + later), client.State(), client.clock)
      {
        ghost var pc, az1, t1 := WriteRest(records[i..] + later), client.State(), client.clock;
        assert (records[i..] + later)[0] == records[i];
        assert (records[i..] + later)[1..] == records[i + 1..] + later;
        OneStep(scope, oracle, pc, az1, t1);
        var created := client.CreateOrUpdateRecordSet(scope.ClusterZone(), records[i]);
        ReachesOn(scope, oracle, start, az, t, pc, az1, t1, Next(scope, pc, az1, oracle(t1)), client.State(), client.clock);
        if !created { return false; }
      }
      assert records[|records|..] + later == later;
      return true;
    }

    method UpdateARecords(current: array<ListedSet>) returns (ok: bool)
      modifies client, current
      ensures Sets(current[..]) == old(Sets(current[..]))
      ensures Took(Diff(scope, old(Sets(current[..]))),
                   if ok then WriteRest(Missing(scope.DesiredCname(), old(Sets(current[..])))) else Stopped(false))
    {
      ghost var cnames := Missing(scope.DesiredCname(), Sets(current[..]));
      var recordsToCreate := CalculateMissingARecords(current);
      if recordsToCreate.None? { return false; }
      ok := CreateAll(recordsToCreate.value, cnames);
    }

    method UpdateCnameRecords(current: array<ListedSet>) returns (ok: bool)
      modifies client
      ensures Took(WriteRest(Missing(scope.DesiredCname(), Sets(current[..]))), Stopped(ok))
    {
      var recordsToCreate := CalculateMissingCnameRecords(current);
      assert recordsToCreate + [] == recordsToCreate;
      ok := CreateAll(recordsToCreate, []);
    }

    /** Base zone listing, the address comparison, and the NS set, which is always written. */
    method EnsureDelegation(servers: seq<string>, ghost listing: seq<RecordSet>) returns (ok: bool)
      modifies client
      ensures Took(ListBase(listing, servers), if ok then Diff(scope, listing) else Stopped(false))
    {
      ghost var az, t, oracle := client.State(), client.clock, client.oracle;
      OneStep(scope, oracle, ListBase(listing, servers), az, t);
      var base := client.ListBaseRecordSets(scope.BaseZone());
      if base.Err? { return false; }
      var clusterNSRecordExists := ClusterNsRecordExists(base.value, clusterName);
      var nameServers: seq<string> := [];
      for i := 0 to |servers|
        invariant nameServers == servers[..i]
      {
        nameServers := nameServers + [servers[i]];
      }
      assert nameServers == servers;
      ok := true;
      if !clusterNSRecordExists {
        OneStep(scope, oracle, WriteNs(listing, servers), az, t + 1);
        ok := client.CreateOrUpdateRecordSet(scope.BaseZone(), NsSet(scope, nameServers));
        ReachesOn(scope, oracle, ListBase(listing, servers), az, t, WriteNs(listing, servers), az, t + 1,
                if ok then Diff(scope, listing) else Stopped(false), client.State(), client.clock);
      }
    }

    /** The zone listing, and the zone itself if it is missing. */
    method ListOrCreateZone() returns (ok: bool, current: array<ListedSet>)
      modifies client
      ensures fresh(current)
      ensures Took(ListZone, if ok then GetZone(Sets(current[..])) else Stopped(false))
    {
      ghost var az, t, oracle := client.State(), client.clock, client.oracle;
      OneStep(scope, oracle, ListZone, az, t);
      ok, current := true, new ListedSet[0];
      var listed := client.ListRecordSets(scope.ClusterZone());
      if listed.Ok? {
        current := listed.value;
      } else if listed.error != ParentNotFound {
        ok := false;
      } else {
        OneStep(scope, oracle, CreateZone, az, t + 1);
        ok := client.CreateOrUpdateZone(scope.ClusterZone());
        ReachesOn(scope, oracle, ListZone, az, t, CreateZone, az, t + 1,
                  Next(scope, CreateZone, az, oracle(t + 1)), client.State(), client.clock);
      }
    }

    /** The zone with its name servers. */
    method EnsureZone() returns (ok: bool, current: array<ListedSet>, servers: seq<string>)
      modifies client
      ensures fresh(current)
      ensures Took(ListZone, if ok then ListBase(Sets(current[..]), servers) else Stopped(false))
    {
      ghost var az, t, oracle := client.State(), client.clock, client.oracle;
      servers := [];
      ok, current := ListOrCreateZone();
      if !ok { return; }
      ghost var at, az1, t1 := GetZone(Sets(current[..])), client.State(), client.clock;
      OneStep(scope, oracle, at, az1, t1);
      var zone := client.GetZone(scope.ClusterZone());
      ReachesOn(scope, oracle, ListZone, az, t, at, az1, t1, Next(scope, at, az1, oracle(t1)), az1, t1 + 1);
      ok := zone.Ok?;
      if ok { servers := zone.value.servers; }
    }

    method UpdateRecords(current: array<ListedSet>) returns (ok: bool)
      modifies client, current
      ensures Took(Diff(scope, old(Sets(current[..]))), Stopped(ok))
    {
      ghost var az, t, oracle, listing := client.State(), client.clock, client.oracle, Sets(current[..]);
      ok := UpdateARecords(current);
      if !ok { return; }
      ghost var at, az1, t1 := WriteRest(Missing(scope.DesiredCname(), listing)), client.State(), client.clock;
      ok := UpdateCnameRecords(current);
      ReachesOn(scope, oracle, Diff(scope, listing), az, t, at, az1, t1, Stopped(ok), client.State(), client.clock);
    }

    method ReconcileZone() returns (ok: bool)
      modifies client
      ensures Took(ListZone, Stopped(ok))
    {
      ghost var az, t, oracle := client.State(), client.clock, client.oracle;
      var current: array<ListedSet>, servers: seq<string>;
      ok, current, servers := EnsureZone();
      if !ok { return; }
      ghost var listing, az1, t1 := Sets(current[..]), client.State(), client.clock;
      ok := EnsureDelegation(servers, listing);
      ghost var at, az2, t2 := if ok then Diff(scope, listing) else Stopped(false), client.State(), client.clock;
      ReachesOn(scope, oracle, ListZone, az, t, ListBase(listing, servers), az1, t1, at, az2, t2);
      if !ok { return; }
      ok := UpdateRecords(current);
      ReachesOn(scope, oracle, ListZone, az, t, at, az2, t2, Stopped(ok), client.State(), client.clock);
    }

    method Reconcile() returns (ok: bool)
      modifies client
      ensures Took(Begin(scope, false), Stopped(ok))
    {
      ghost var az, t, oracle := client.State(), client.clock, client.oracle;
      if !scope.kind.AzureCluster? {
        ok := CreateClusterResourceGroup();
        if !ok { return; }
      }
      ghost var az1, t1 := client.State(), client.clock;
      assert scope.kind.AzureCluster? ==> Reaches(scope, oracle, ListZone, az, t, ListZone, az1, t1);
      ok := ReconcileZone();
      ReachesOn(scope, oracle, Begin(scope, false), az, t, ListZone, az1, t1, Stopped(ok), client.State(), client.clock);
    }

    method ReconcileDelete() returns (ok: bool)
      modifies client
      ensures Took(Begin(scope, true), Stopped(ok))
    {
      ghost var az, t, oracle := client.State(), client.clock, client.oracle;
      OneStep(scope, oracle, DeleteNs, az, t);
      ok := client.DeleteRecordSet(scope.BaseZone(), scope.NsKey());
      if !ok { return; }
      if !scope.kind.AzureCluster? {
        ghost var az1 := client.State();
        OneStep(scope, oracle, DeleteGroup, az1, t + 1);
        var deleted := client.DeleteResourceGroup(scope.ResourceGroup());
        ok := deleted.Ok? || deleted.error == NotFound;
        ReachesOn(scope, oracle, DeleteNs, az, t, DeleteGroup, az1, t + 1, Stopped(ok), client.State(), client.clock);
      }
    }
  }
}
