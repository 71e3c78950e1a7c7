/**
 The private DNS service as it is written, proved to take exactly the steps of its run machine
 (azure/services/privatedns, azure/scope/privatedns.go).
 */
module PrivateService {
  import opened AzureModel
  import opened DesiredRecords
  import opened RecordDiff
  import opened PrivateRun
  import PrivateCompletion

  datatype ListError = ParentNotFound | OtherError

  datatype Listing<+T> = Listed(value: T) | NotListed(error: ListError)

  /** Private zones by resource group and name; how calls end is picked by an oracle. */
  class PrivateClient {
    var zones: map<(string, string), PrivateZone>
    var clock: nat
    const oracle: nat -> PrivateOutcome

    constructor (zones: map<(string, string), PrivateZone>, oracle: nat -> PrivateOutcome)
      ensures this.zones == zones && clock == 0 && this.oracle == oracle
    {
      this.zones, clock, this.oracle := zones, 0, oracle;
    }

    function Zone(z: (string, string)): Option<PrivateZone>
      reads this
    {
      if z in zones then Some(zones[z]) else None
    }

    /** One call: the clock ticks, and only zone `z` can have changed. */
    twostate predicate Called(z: (string, string), s: PrivateScope, pc: Pc)
      reads this
    {
      && clock == old(clock) + 1
      && Zone(z) == Effect(s, pc, old(Zone(z)), oracle(old(clock)))
      && zones - {z} == old(zones) - {z}
    }

    method ListPrivateRecordSets(z: (string, string)) returns (r: Listing<seq<RecordSet>>)
      modifies this`clock
      ensures clock == old(clock) + 1
      ensures var o := oracle(old(clock));
              r == if !o.reply.Done? then NotListed(OtherError)
                   else if z !in zones then NotListed(ParentNotFound)
                   else if IsListing(OnlyA(zones[z].records), o.listing) then Listed(o.listing)
                   else NotListed(OtherError)
    {
      var o := oracle(clock);
      clock := clock + 1;
      if !o.reply.Done? { return NotListed(OtherError); }
      if z !in zones { return NotListed(ParentNotFound); }
      r := if IsListing(OnlyA(zones[z].records), o.listing) then Listed(o.listing) else NotListed(OtherError);
    }

    /** Names and links in the listed order. */
    method ListVirtualNetworkLink(z: (string, string)) returns (r: Listing<seq<(string, Link)>>)
      modifies this`clock
      ensures clock == old(clock) + 1
      ensures var o := oracle(old(clock));
              if o.reply.Done? && z in zones && IsLinkListing(zones[z].links, o.linkNames)
              then r.Listed? && |r.value| == |o.linkNames|
                && forall i | 0 <= i < |r.value| :: r.value[i] == (o.linkNames[i], zones[z].links[o.linkNames[i]])
              else r.NotListed?
    {
      var o := oracle(clock);
      clock := clock + 1;
      if !o.reply.Done? || z !in zones || !IsLinkListing(zones[z].links, o.linkNames) { return NotListed(OtherError); }
      var links := zones[z].links;
      r := Listed(seq(|o.linkNames|, i requires 0 <= i < |o.linkNames| => (o.linkNames[i], links[o.linkNames[i]])));
    }

    method CreateOrUpdatePrivateZone(z: (string, string), ghost s: PrivateScope) returns (ok: bool)
      modifies this
      ensures Called(z, s, CreateZone) && ok == oracle(old(clock)).reply.Done?
    {
      var o := oracle(clock);
      clock := clock + 1;
      if !o.reply.Failed? && z !in zones { zones := zones[z := NEW_ZONE]; }
      assert zones - {z} == old(zones) - {z};
      ok := o.reply.Done?;
    }

    method DeleteVirtualNetworkLink(z: (string, string), name: string) returns (ok: bool)
      modifies this
      ensures clock == old(clock) + 1 && zones - {z} == old(zones) - {z} && ok == oracle(old(clock)).reply.Done?
      ensures Zone(z) == if oracle(old(clock)).reply.Failed? || z !in old(zones) then old(Zone(z))
                         else Some(old(zones)[z].(links := old(zones)[z].links - {name}))
    {
      var o := oracle(clock);
      clock := clock + 1;
      if !o.reply.Failed? && z in zones { zones := zones[z := zones[z].(links := zones[z].links - {name})]; }
      assert zones - {z} == old(zones) - {z};
      ok := o.reply.Done?;
    }

    method CreateOrUpdateVirtualNetworkLink(z: (string, string), vnet: string, name: string) returns (ok: bool)
      modifies this
      ensures clock == old(clock) + 1 && zones - {z} == old(zones) - {z}
      ensures ok == (oracle(old(clock)).reply.Done? && z in old(zones))
      ensures Zone(z) == if oracle(old(clock)).reply.Failed? || z !in old(zones) then old(Zone(z))
                         else Some(old(zones)[z].(links := old(zones)[z].links[name := Link(oracle(old(clock)).linkId, vnet)]))
    {
      var o := oracle(clock);
      clock := clock + 1;
      ok := o.reply.Done? && z in zones;
      if !o.reply.Failed? && z in zones {
        zones := zones[z := zones[z].(links := zones[z].links[name := Link(o.linkId, vnet)])];
      }
      assert zones - {z} == old(zones) - {z};
    }

    method GetPrivateZone(z: (string, string)) returns (found: bool)
      modifies this`clock
      ensures clock == old(clock) + 1 && found == (oracle(old(clock)).reply.Done? && z in zones)
    {
      var o := oracle(clock);
      clock := clock + 1;
      found := o.reply.Done? && z in zones;
    }

    method CreateOrUpdateRecordSet(z: (string, string), e: RecordSet) returns (ok: bool)
      modifies this
      ensures clock == old(clock) + 1 && zones - {z} == old(zones) - {z}
      ensures ok == (oracle(old(clock)).reply.Done? && z in old(zones))
      ensures Zone(z) == if oracle(old(clock)).reply.Failed? || z !in old(zones) then old(Zone(z))
                         else Some(old(zones)[z].(records := old(zones)[z].records[e.key := e.props]))
    {
      var o := oracle(clock);
      clock := clock + 1;
      ok := o.reply.Done? && z in zones;
      if !o.reply.Failed? && z in zones {
        zones := zones[z := zones[z].(records := zones[z].records[e.key := e.props])];
      }
      assert zones - {z} == old(zones) - {z};
    }

    /** A zone that still has links is refused. */
    method DeletePrivateZone(z: (string, string)) returns (ok: bool)
      modifies this
      ensures clock == old(clock) + 1 && zones - {z} == old(zones) - {z}
      ensures ok == (oracle(old(clock)).reply.Done? && (z !in old(zones) || old(zones)[z].links == map[]))
      ensures Zone(z) == if oracle(old(clock)).reply.Failed? || z !in old(zones) || old(zones)[z].links != map[]
                         then old(Zone(z)) else None
    {
      var o := oracle(clock);
      clock := clock + 1;
      ok := o.reply.Done? && (z !in zones || zones[z].links == map[]);
      if !o.reply.Failed? && z in zones && zones[z].links == map[] { zones := zones - {z}; }
      assert zones - {z} == old(zones) - {z};
    }
  }

  /** Nested loops over subnets and endpoints; a later match overwrites an earlier one. */
  method PrivateLinkedApiServerIp(s: PrivateScope) returns (ip: string)
    ensures ip == s.ApiServerIp()
    ensures s.apiServerIp != "" ==> ip == s.apiServerIp
    ensures s.apiServerIp == "" && (forall subnet, e | subnet in s.subnets && e in subnet :: !Names(s.clusterName, e)) ==> ip == ""
    ensures s.apiServerIp == "" ==> forall i: nat, j: nat | IsLastNamed(s, i, j) :: ip == s.subnets[i][j].addresses[0]
  {
    ApiServerIpMeaning(s);
    if |s.apiServerIp| > 0 { return s.apiServerIp; }
    var name := s.clusterName + "-api-privatelink-privateendpoint";
    ip := "";
    for i := 0 to |s.subnets|
      invariant ip == EndpointIp(Flat(s.subnets[..i]), name)
    {
      FlatAppend(s.subnets[..i], s.subnets[i]);
      assert s.subnets[..i + 1] == s.subnets[..i] + [s.subnets[i]];
      ip := LastEndpointIp(s.subnets[i], name, ip, Flat(s.subnets[..i]));
    }
    assert s.subnets[..|s.subnets|] == s.subnets;
  }

  method LastEndpointIp(endpoints: seq<Endpoint>, name: string, current: string, ghost before: seq<Endpoint>) returns (ip: string)
    requires current == EndpointIp(before, name)
    ensures ip == EndpointIp(before + endpoints, name)
  {
    ip := current;
    assert before + endpoints[..0] == before;
    for j := 0 to |endpoints|
      invariant ip == EndpointIp(before + endpoints[..j], name)
    {
      ghost var seen := before + endpoints[..j + 1];
      assert seen[..|seen| - 1] == before + endpoints[..j] && seen[|seen| - 1] == endpoints[j];
      if endpoints[j].name == name {
        if |endpoints[j].addresses| > 0 { ip := endpoints[j].addresses[0]; }
      }
    }
    assert endpoints[..|endpoints|] == endpoints;
  }

  /** The diff loop of both record types: first set of the name, payload, then TTL. */
  method MissingRecords(desired: seq<RecordSet>, current: seq<RecordSet>) returns (recordsToCreate: seq<RecordSet>)
    ensures recordsToCreate == Missing(desired, current)
  {
    recordsToCreate := [];
    for i := 0 to |desired|
      invariant recordsToCreate + Missing(desired[i..], current) == Missing(desired, current)
    {
      var d := desired[i];
      MissingFrom(recordsToCreate, desired, current, i);
      var index := IndexOfName(current, d.key.name);
      if index == -1 {
        recordsToCreate := recordsToCreate + [d];
      } else if Differs(d, current[index]) {
        recordsToCreate := recordsToCreate + [d];
      }
    }
  }

  method IndexOfName(current: seq<RecordSet>, name: string) returns (index: int)
    ensures -1 <= index < |current|
    ensures Lookup(current, name) == if index == -1 then None else Some(current[index])
  {
    for i := 0 to |current|
      invariant Lookup(current, name) == Lookup(current[i..], name)
    {
      assert current[i..][0] == current[i] && current[i..][1..] == current[i + 1..];
      if current[i].key.name == name { return i; }
    }
    return -1;
  }

  /** First link that is the operator's own, by name or by ID. */
  method OwnLinkIndex(s: PrivateScope, links: seq<(string, Link)>) returns (index: int)
    ensures -1 <= index < |links|
    ensures index == -1 <==> forall l | l in links :: l.0 != s.LinkName() && l.1.id != s.clientId
  {
    for i := 0 to |links|
      invariant forall j | 0 <= j < i :: links[j].0 != s.LinkName() && links[j].1.id != s.clientId
    {
      if links[i].0 == s.LinkName() || links[i].1.id == s.clientId {
        assert links[i] in links;
        return i;
      }
    }
    return -1;
  }

  method VnetLinkIndex(s: PrivateScope, links: seq<(string, Link)>) returns (index: int)
    ensures -1 <= index < |links|
    ensures index == -1 ==> forall l | l in links :: l.1.vnet != s.vnet
    ensures index != -1 ==> links[index].1.vnet == s.vnet && forall j | 0 <= j < index :: links[j].1.vnet != s.vnet
  {
    for i := 0 to |links|
      invariant forall j | 0 <= j < i :: links[j].1.vnet != s.vnet
    {
      if links[i].1.vnet == s.vnet { return i; }
    }
    return -1;
  }

  lemma {:induction false} FirstToVnetAt(s: PrivateScope, links: map<string, Link>, names: seq<string>, i: nat)
    requires forall n | n in names :: n in links
    requires i < |names| && links[names[i]].vnet == s.vnet && forall j | 0 <= j < i :: links[names[j]].vnet != s.vnet
    ensures FirstToVnet(s, links, names) == Some(names[i])
  {
    if i > 0 {
      assert links[names[0]].vnet != s.vnet;
      FirstToVnetAt(s, links, names[1..], i - 1);
    }
  }

  class PrivateDnsService {
    const scope: PrivateScope
    const client: PrivateClient

    constructor (scope: PrivateScope, client: PrivateClient)
      ensures this.scope == scope && this.client == client
    {
      this.scope, this.client := scope, client;
    }

    function Key(): (string, string) { (scope.resourceGroup, scope.ClusterDomain()) }

    /** The zone has a link of the operator's. */
    function Owned(): bool
      reads client
    {
      client.Zone(Key()).Some? && HasOwnLink(scope, client.Zone(Key()).value.links)
    }

    /** The calls made since the old state are the machine's steps from `from` to `to`, and touch this zone only. */
    twostate predicate Took(from: Pc, to: Pc)
      reads client
    {
      && Reaches(scope, client.oracle, from, old(client.Zone(Key())), old(client.clock), to, client.Zone(Key()), client.clock)
      && client.zones - {Key()} == old(client.zones) - {Key()}
    }

    method GetDesiredPrivateARecords() returns (recordSets: seq<RecordSet>)
      ensures recordSets == scope.DesiredA()
    {
      recordSets := [];
      var ip := PrivateLinkedApiServerIp(scope);
      if |ip| > 0 { recordSets := recordSets + [ARecord("apiserver", ip)]; }
      if |scope.mcIngressIp| > 0 { recordSets := recordSets + [ARecord("ingress", scope.mcIngressIp)]; }
    }

    /** The loop of remote writes shared by both update functions. */
    method CreateAll(records: seq<RecordSet>, ghost later: seq<RecordSet>) returns (ok: bool)
      modifies client
      ensures Took(WriteRest(records + later), if ok then WriteRest(later) else Stopped(false))
    {
      ghost var zone, t, oracle, start := client.Zone(Key()), client.clock, client.oracle, WriteRest(records + later);
      assert records[0..] + later == records + later;
      for i := 0 to |records|
        invariant client.zones - {Key()} == old(client.zones) - {Key()}
        invariant Reaches(scope, oracle, start, zone, t, WriteRest(records[i..] + later), client.Zone(Key()), client.clock)
      {
        ghost var pc, zone1, t1 := WriteRest(records[i..] + later), client.Zone(Key()), client.clock;
        assert (records[i..] + later)[0] == records[i];
        assert (records[i..] + later)[1..] == records[i + 1..] + later;
        OneStep(scope, oracle, pc, zone1, t1);
        var created := client.CreateOrUpdateRecordSet(Key(), records[i]);
        ReachesOn(scope, oracle, start, zone, t, pc, zone1, t1, Next(scope, pc, zone1, oracle(t1)), client.Zone(Key()), client.clock);
        if !created { return false; }
      }
      assert records[|records|..] + later == later;
      return true;
    }

    method UpdateRecords(current: seq<RecordSet>) returns (ok: bool)
      modifies client
      ensures Took(WriteRest(Pending(scope, current)), Stopped(ok))
    {
      ghost var zone, t, start := client.Zone(Key()), client.clock, WriteRest(Pending(scope, current));
      var desired := GetDesiredPrivateARecords();
      var recordsToCreate := MissingRecords(desired, current);
      ghost var later := Missing(scope.DesiredCname(), current);
      ok := CreateAll(recordsToCreate, later);
      if !ok { return; }
      ghost var zone1, t1 := client.Zone(Key()), client.clock;
      recordsToCreate := MissingRecords(scope.DesiredCname(), current);
      assert recordsToCreate + [] == recordsToCreate;
      ok := CreateAll(recordsToCreate, []);
      ReachesOn(scope, client.oracle, start, zone, t, WriteRest(later), zone1, t1, Stopped(ok), client.Zone(Key()), client.clock);
    }

    /** A foreign link to the network is deleted, then the operator's link is created. */
    method ReplaceLink(existing: Option<string>, ghost listing: seq<RecordSet>) returns (ok: bool)
      modifies client
      ensures Took(if existing.Some? then DeleteLink(listing, existing.value) else CreateLink(listing),
                   if ok then GetZone(listing) else Stopped(false))
    {
      ghost var zone, t, oracle := client.Zone(Key()), client.clock, client.oracle;
      ghost var start := if existing.Some? then DeleteLink(listing, existing.value) else CreateLink(listing);
      OneStep(scope, oracle, start, zone, t);
      if existing.Some? {
        ok := client.DeleteVirtualNetworkLink(Key(), existing.value);
        if !ok { return; }
      }
      ghost var zone1, t1 := client.Zone(Key()), client.clock;
      assert Reaches(scope, oracle, start, zone, t, CreateLink(listing), zone1, t1);
      OneStep(scope, oracle, CreateLink(listing), zone1, t1);
      ok := client.CreateOrUpdateVirtualNetworkLink(Key(), scope.vnet, scope.LinkName());
      ReachesOn(scope, oracle, start, zone, t, CreateLink(listing), zone1, t1,
                if ok then GetZone(listing) else Stopped(false), client.Zone(Key()), t1 + 1);
    }

    /** The choice made from the listed links: nothing to do, or the link to replace, or none to replace. */
    method ChooseLink(links: seq<(string, Link)>, ghost zone: PrivateZone, ghost names: seq<string>)
      returns (own: bool, existing: Option<string>)
      requires IsLinkListing(zone.links, names) && |links| == |names|
      requires forall i | 0 <= i < |names| :: links[i] == (names[i], zone.links[names[i]])
      ensures own == HasOwnLink(scope, zone.links)
      ensures !own ==> existing == FirstToVnet(scope, zone.links, names)
    {
      var index := OwnLinkIndex(scope, links);
      LinksListed(scope, zone.links, names, links);
      if index != -1 { return true, None; }
      index := VnetLinkIndex(scope, links);
      if index >= 0 {
        FirstToVnetAt(scope, zone.links, names, index);
        return false, Some(links[index].0);
      }
      NoneToVnet(scope, zone.links, names, links);
      return false, None;
    }

    method EnsureLink(ghost listing: seq<RecordSet>) returns (ok: bool)
      modifies client
      ensures Took(ListLinks(listing), if ok then GetZone(listing) else Stopped(false))
    {
      ghost var zone, t, oracle, start := client.Zone(Key()), client.clock, client.oracle, ListLinks(listing);
      OneStep(scope, oracle, start, zone, t);
      var listed := client.ListVirtualNetworkLink(Key());
      if listed.NotListed? { return false; }
      var own, existing := ChooseLink(listed.value, zone.value, oracle(t).linkNames);
      if own { return true; }
      ok := ReplaceLink(existing, listing);
      ReachesOn(scope, oracle, start, zone, t, Next(scope, start, zone, oracle(t)), zone, t + 1,
                if ok then GetZone(listing) else Stopped(false), client.Zone(Key()), client.clock);
    }

    method EnsureZone() returns (ok: bool, current: seq<RecordSet>)
      modifies client
      ensures Took(ListRecords, if ok then ListLinks(current) else Stopped(false))
    {
      ghost var zone, t, oracle := client.Zone(Key()), client.clock, client.oracle;
      OneStep(scope, oracle, ListRecords, zone, t);
      ok, current := true, [];
      var listed := client.ListPrivateRecordSets(Key());
      if listed.Listed? {
        current := listed.value;
      } else if listed.error != ParentNotFound {
        ok := false;
      } else {
        OneStep(scope, oracle, CreateZone, zone, t + 1);
        ok := client.CreateOrUpdatePrivateZone(Key(), scope);
        ReachesOn(scope, oracle, ListRecords, zone, t, CreateZone, zone, t + 1,
                  if ok then ListLinks([]) else Stopped(false), client.Zone(Key()), t + 2);
      }
    }

    /** A failed lookup of the zone is only logged; dereferencing its empty result aborts the run. */
    method FinishZone(current: seq<RecordSet>) returns (ok: bool)
      modifies client
      ensures Took(GetZone(current), Stopped(ok))
    {
      ghost var zone, t, oracle := client.Zone(Key()), client.clock, client.oracle;
      OneStep(scope, oracle, GetZone(current), zone, t);
      var found := client.GetPrivateZone(Key());
      if !found { return false; }
      ok := UpdateRecords(current);
      ReachesOn(scope, oracle, GetZone(current), zone, t, WriteRest(Pending(scope, current)), zone, t + 1,
                Stopped(ok), client.Zone(Key()), client.clock);
    }

    /** It succeeds exactly if its calls are answered, and then the zone is there with the operator's link. */
    method Reconcile() returns (ok: bool)
      modifies client
      ensures Took(Begin(false), Stopped(ok))
      ensures client.zones - {(scope.resourceGroup, scope.clusterName + "." + scope.baseDomain)}
           == old(client.zones) - {(scope.resourceGroup, scope.clusterName + "." + scope.baseDomain)}
      ensures ok <==> PrivateCompletion.AnsweredToTheEnd(scope, ListRecords, old(client.Zone(Key())),
                                                         Feed(client.oracle, old(client.clock), client.clock))
      ensures ok ==> client.Zone(Key()).Some? && PrivateCompletion.Linked(scope, old(Owned()), client.Zone(Key()).value)
      ensures ok && old(client.Zone(Key()).Some? ==> WellTyped(client.Zone(Key()).value.records)) ==>
                AllHold(client.Zone(Key()).value.records, scope.Goals())
    {
      ghost var zone, t, oracle := client.Zone(Key()), client.clock, client.oracle;
      var current: seq<RecordSet>;
      ok, current := EnsureZone();
      if ok {
        ghost var zone1, t1 := client.Zone(Key()), client.clock;
        ok := EnsureLink(current);
        ghost var at, zone2, t2 := if ok then GetZone(current) else Stopped(false), client.Zone(Key()), client.clock;
        ReachesOn(scope, oracle, ListRecords, zone, t, ListLinks(current), zone1, t1, at, zone2, t2);
        if ok {
          ok := FinishZone(current);
          ReachesOn(scope, oracle, ListRecords, zone, t, at, zone2, t2, Stopped(ok), client.Zone(Key()), client.clock);
        }
      }
      PrivateCompletion.PrivateRunSucceedsIff(scope, zone, Feed(oracle, t, client.clock));
    }

    /** It succeeds exactly if both calls are answered and the zone has no link but the operator's; then the zone is gone. */
    method ReconcileDelete() returns (ok: bool)
      modifies client
      ensures Took(Begin(true), Stopped(ok))
      ensures var zone, t := old(client.Zone(Key())), old(client.clock);
              ok <==> client.clock >= t + 2 && client.oracle(t).reply.Done? && client.oracle(t + 1).reply.Done?
                      && (zone.Some? ==> forall n | n in zone.value.links :: n == scope.resourceGroup + "-vnet-link")
      ensures ok ==> client.Zone(Key()).None?
    {
      ghost var zone, t, oracle := client.Zone(Key()), client.clock, client.oracle;
      OneStep(scope, oracle, DropLink, zone, t);
      ok := client.DeleteVirtualNetworkLink(Key(), scope.LinkName());
      if !ok { return; }
      ghost var zone1 := client.Zone(Key());
      OneStep(scope, oracle, DropZone, zone1, t + 1);
      ok := client.DeletePrivateZone(Key());
      ReachesOn(scope, oracle, DropLink, zone, t, DropZone, zone1, t + 1, Stopped(ok), client.Zone(Key()), client.clock);
      PrivateCompletion.PrivateDeletionSucceedsIff(scope, zone, Feed(oracle, t, client.clock));
    }
  }

  lemma LinksListed(s: PrivateScope, links: map<string, Link>, names: seq<string>, listed: seq<(string, Link)>)
    requires IsLinkListing(links, names) && |listed| == |names|
    requires forall i | 0 <= i < |names| :: listed[i] == (names[i], links[names[i]])
    ensures HasOwnLink(s, links) <==> exists l | l in listed :: l.0 == s.LinkName() || l.1.id == s.clientId
  {}

  lemma NoneToVnet(s: PrivateScope, links: map<string, Link>, names: seq<string>, listed: seq<(string, Link)>)
    requires IsLinkListing(links, names) && |listed| == |names|
    requires forall i | 0 <= i < |names| :: listed[i] == (names[i], links[names[i]])
    requires forall l | l in listed :: l.1.vnet != s.vnet
    ensures FirstToVnet(s, links, names).None?
  {}
}
