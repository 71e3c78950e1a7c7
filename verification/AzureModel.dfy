/**
 Azure as the operator sees it: resource groups, DNS zones with their name servers, and record
 sets.  The client wrappers are not modelled; what is kept of them is the effect of each call and
 the three ways a call can end.
 */
module AzureModel {
  datatype Option<+T> = None | Some(value: T)

  datatype RecordType = A | CNAME | NS | SOA | OtherType(tag: string)

  datatype RecordKey = RecordKey(rtype: RecordType, name: string)

  /** The properties the operator reads or writes; a set leaves the fields of other types empty. */
  datatype Payload = Payload(ttl: int, addresses: seq<string>, alias: Option<string>, servers: seq<string>)

  datatype RecordSet = RecordSet(key: RecordKey, props: Payload)

  type Records = map<RecordKey, Payload>

  datatype GroupId = GroupId(subscription: string, name: string)

  datatype Group = Group(location: string, tags: map<string, string>)

  datatype ZoneId = ZoneId(group: GroupId, name: string)

  datatype Zone = Zone(servers: seq<string>, records: Records)

  datatype Azure = Azure(groups: map<GroupId, Group>, zones: map<ZoneId, Zone>)

  /** How a call ended: answered, refused, or reported as failed although it took effect. */
  datatype Reply = Done | Failed | FailedAfterEffect

  /** What the environment decides about one call; listings and name servers are used where asked for. */
  datatype Outcome = Outcome(reply: Reply, listing: seq<RecordSet>, servers: seq<string>)

  predicate Holds(records: Records, e: RecordSet) {
    e.key in records && records[e.key] == e.props
  }

  /** `listing` shows exactly the record sets of the zone, in any order. */
  predicate IsListing(records: Records, listing: seq<RecordSet>) {
    && (forall e | e in listing :: Holds(records, e))
    && (forall k | k in records :: RecordSet(k, records[k]) in listing)
  }

  lemma {:induction false} EveryZoneCanBeListed(records: Records) returns (listing: seq<RecordSet>)
    ensures IsListing(records, listing)
    decreases |records|
  {
    if records == map[] {
      listing := [];
    } else {
      var k :| k in records;
      var smaller := records - {k};
      assert records.Keys == smaller.Keys + {k};
      var rest := EveryZoneCanBeListed(smaller);
      listing := [RecordSet(k, records[k])] + rest;
      forall e | e in listing ensures Holds(records, e) {
        if e in rest { assert Holds(smaller, e); }
      }
      forall j | j in records ensures RecordSet(j, records[j]) in listing {
        if j != k { assert RecordSet(j, smaller[j]) in rest; }
      }
    }
  }

  predicate OwnPayload(e: RecordSet) {
    && (e.key.rtype.A? || e.props.addresses == [])
    && (e.key.rtype.CNAME? || e.props.alias.None?)
    && (e.key.rtype.NS? || e.props.servers == [])
  }

  predicate WellTyped(records: Records) {
    forall k | k in records :: OwnPayload(RecordSet(k, records[k]))
  }

  /** The NS and SOA sets Azure puts at the apex of every new zone. */
  function ApexRecords(servers: seq<string>): Records {
    map[RecordKey(NS, "@") := Payload(172800, [], None, servers),
        RecordKey(SOA, "@") := Payload(3600, [], None, [])]
  }

  // ----- effects of the mutating calls -----

  function PutGroup(az: Azure, g: GroupId, group: Group): Azure {
    az.(groups := az.groups[g := group])
  }

  /** Creating an existing zone keeps its name servers and its records. */
  function PutZone(az: Azure, z: ZoneId, servers: seq<string>): Azure {
    if z.group in az.groups && z !in az.zones
    then az.(zones := az.zones[z := Zone(servers, ApexRecords(servers))])
    else az
  }

  function PutRecord(az: Azure, z: ZoneId, e: RecordSet): Azure {
    if z in az.zones
    then az.(zones := az.zones[z := az.zones[z].(records := az.zones[z].records[e.key := e.props])])
    else az
  }

  function DropRecord(az: Azure, z: ZoneId, k: RecordKey): Azure {
    if z in az.zones
    then az.(zones := az.zones[z := az.zones[z].(records := az.zones[z].records - {k})])
    else az
  }

  /** Deleting a resource group takes every zone in it along. */
  function DropGroup(az: Azure, g: GroupId): Azure {
    Azure(az.groups - {g}, map z | z in az.zones && z.group != g :: az.zones[z])
  }
}
