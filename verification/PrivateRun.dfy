/**
 One run of the private DNS reconciler as a step machine over its zone, and what histories of such
 runs keep (azure/services/privatedns, azure/scope/privatedns.go).
 */
module PrivateRun {
  import opened AzureModel
  import opened DesiredRecords
  import opened RecordDiff

  datatype Link = Link(id: string, vnet: string)

  datatype PrivateZone = PrivateZone(links: map<string, Link>, records: Records)

  /** Listings come in the order the environment picks; a new link gets the ID it picks. */
  datatype PrivateOutcome = PrivateOutcome(reply: Reply, listing: seq<RecordSet>, linkNames: seq<string>, linkId: string)

  datatype Endpoint = Endpoint(name: string, addresses: seq<string>)

  datatype PrivateScope = PrivateScope(
    clusterName: string,
    baseDomain: string,
    resourceGroup: string,
    clientId: string,
    vnet: string,
    apiServerIp: string,
    subnets: seq<seq<Endpoint>>,
    mcIngressIp: string,
    wildcardTarget: string)
  {
    function ClusterDomain(): string { clusterName + "." + baseDomain }
    function LinkName(): string { resourceGroup + "-vnet-link" }
    function ApiServerIp(): string {
      if apiServerIp != "" then apiServerIp
      else EndpointIp(Flat(subnets), clusterName + "-api-privatelink-privateendpoint")
    }
    function DesiredA(): seq<RecordSet> {
      (if ApiServerIp() != "" then [ARecord("apiserver", ApiServerIp())] else [])
      + (if mcIngressIp != "" then [ARecord("ingress", mcIngressIp)] else [])
    }
    function DesiredCname(): seq<RecordSet> {
      [WildcardRecord((if wildcardTarget == "" then "ingress" else wildcardTarget) + "." + ClusterDomain())]
    }
    function Goals(): seq<RecordSet> { DesiredA() + DesiredCname() }
  }

  function Flat<T>(lists: seq<seq<T>>): seq<T> {
    if lists == [] then [] else lists[0] + Flat(lists[1..])
  }

  /** First address of the last endpoint of that name that has one. */
  function EndpointIp(endpoints: seq<Endpoint>, name: string): string {
    if endpoints == [] then ""
    else
      var last := endpoints[|endpoints| - 1];
      if last.name == name && |last.addresses| > 0 then last.addresses[0]
      else EndpointIp(endpoints[..|endpoints| - 1], name)
  }

  /** The listing asks for A sets only. */
  function OnlyA(records: Records): Records {
    map k | k in records && k.rtype.A? :: records[k]
  }

  const NEW_ZONE := PrivateZone(map[], map[RecordKey(SOA, "@") := Payload(3600, [], None, [])])

  predicate IsLinkListing(links: map<string, Link>, names: seq<string>) {
    (forall n | n in names :: n in links) && (forall n | n in links :: n in names)
  }

  /** The operator's link: by name, or by an ID equal to the client ID. */
  predicate HasOwnLink(s: PrivateScope, links: map<string, Link>) {
    s.LinkName() in links || exists n | n in links :: links[n].id == s.clientId
  }

  /** The first listed link to the target network. */
  function FirstToVnet(s: PrivateScope, links: map<string, Link>, names: seq<string>): (r: Option<string>)
    requires forall n | n in names :: n in links
    ensures r.Some? ==> r.value in names && links[r.value].vnet == s.vnet
    ensures r.None? ==> forall n | n in names :: links[n].vnet != s.vnet
  {
    if names == [] then None
    else if links[names[0]].vnet == s.vnet then Some(names[0])
    else FirstToVnet(s, links, names[1..])
  }

  datatype Pc =
    | ListRecords
    | CreateZone
    | ListLinks(listing: seq<RecordSet>)
    | DeleteLink(listing: seq<RecordSet>, name: string)
    | CreateLink(listing: seq<RecordSet>)
    | GetZone(listing: seq<RecordSet>)
    | WriteSets(pending: seq<RecordSet>)
    | DropLink
    | DropZone
    | Stopped(ok: bool)

  function Begin(delete: bool): Pc { if delete then DropLink else ListRecords }

  function WriteRest(pending: seq<RecordSet>): Pc {
    if pending == [] then Stopped(true) else WriteSets(pending)
  }

  function Pending(s: PrivateScope, listing: seq<RecordSet>): seq<RecordSet> {
    Missing(s.DesiredA(), listing) + Missing(s.DesiredCname(), listing)
  }

  /** A failed GetZone is only logged and its result dereferenced: the run aborts there. */
  function Next(s: PrivateScope, pc: Pc, zone: Option<PrivateZone>, o: PrivateOutcome): Pc {
    if pc.Stopped? then pc
    else if !o.reply.Done? then Stopped(false)
    else match pc
      case ListRecords =>
        if zone.None? then CreateZone
        else if IsListing(OnlyA(zone.value.records), o.listing) then ListLinks(o.listing)
        else Stopped(false)
      case CreateZone => ListLinks([])
      case ListLinks(listing) =>
        if zone.None? || !IsLinkListing(zone.value.links, o.linkNames) then Stopped(false)
        else if HasOwnLink(s, zone.value.links) then GetZone(listing)
        else
          var existing := FirstToVnet(s, zone.value.links, o.linkNames);
          if existing.Some? then DeleteLink(listing, existing.value) else CreateLink(listing)
      case DeleteLink(listing, _) => CreateLink(listing)
      case CreateLink(listing) => if zone.Some? then GetZone(listing) else Stopped(false)
      case GetZone(listing) => if zone.Some? then WriteRest(Pending(s, listing)) else Stopped(false)
      case WriteSets(pending) => if zone.Some? && pending != [] then WriteRest(pending[1..]) else Stopped(false)
      case DropLink => DropZone
      case DropZone => Stopped(zone.None? || zone.value.links == map[])
  }

  /** Creating an existing zone changes nothing; a zone with links is not deleted. */
  function Write(s: PrivateScope, pc: Pc, zone: Option<PrivateZone>, o: PrivateOutcome): Option<PrivateZone> {
    match pc
    case CreateZone => if zone.None? then Some(NEW_ZONE) else zone
    case DeleteLink(_, name) => if zone.None? then None else Some(zone.value.(links := zone.value.links - {name}))
    case CreateLink(_) =>
      if zone.None? then None
      else Some(zone.value.(links := zone.value.links[s.LinkName() := Link(o.linkId, s.vnet)]))
    case WriteSets(pending) =>
      if zone.None? || pending == [] then zone
      else Some(zone.value.(records := zone.value.records[pending[0].key := pending[0].props]))
    case DropLink => if zone.None? then None else Some(zone.value.(links := zone.value.links - {s.LinkName()}))
    case DropZone => if zone.Some? && zone.value.links == map[] then None else zone
    case _ => zone
  }

  function Effect(s: PrivateScope, pc: Pc, zone: Option<PrivateZone>, o: PrivateOutcome): Option<PrivateZone> {
    if o.reply.Failed? then zone else Write(s, pc, zone, o)
  }

  function Steps(s: PrivateScope, pc: Pc, zone: Option<PrivateZone>, outcomes: seq<PrivateOutcome>): (Pc, Option<PrivateZone>)
    decreases outcomes
  {
    if outcomes == [] then (pc, zone)
    else Steps(s, Next(s, pc, zone, outcomes[0]), Effect(s, pc, zone, outcomes[0]), outcomes[1..])
  }

  lemma {:induction false} StepsAppend(s: PrivateScope, pc: Pc, zone: Option<PrivateZone>, p: seq<PrivateOutcome>, q: seq<PrivateOutcome>)
    ensures Steps(s, pc, zone, p + q) == var (pc', zone') := Steps(s, pc, zone, p); Steps(s, pc', zone', q)
    decreases p
  {
    if p == [] {
      assert p + q == q;
    } else {
      StepsAppend(s, Next(s, pc, zone, p[0]), Effect(s, pc, zone, p[0]), p[1..], q);
      assert (p + q)[1..] == p[1..] + q;
    }
  }

  /** The oracle's outcomes from time `t` to `t'`. */
  function Feed(oracle: nat -> PrivateOutcome, t: nat, t': nat): seq<PrivateOutcome>
    requires t <= t'
  {
    seq(t' - t, i requires 0 <= i => oracle(t + i))
  }

  /** Fed with the oracle's outcomes from time `t` to `t'`, the run gets from (pc, zone) to (pc', zone'). */
  ghost predicate Reaches(s: PrivateScope, oracle: nat -> PrivateOutcome, pc: Pc, zone: Option<PrivateZone>, t: nat,
                          pc': Pc, zone': Option<PrivateZone>, t': nat)
  {
    t <= t' && Steps(s, pc, zone, Feed(oracle, t, t')) == (pc', zone')
  }

  lemma OneStep(s: PrivateScope, oracle: nat -> PrivateOutcome, pc: Pc, zone: Option<PrivateZone>, t: nat)
    ensures Reaches(s, oracle, pc, zone, t, Next(s, pc, zone, oracle(t)), Effect(s, pc, zone, oracle(t)), t + 1)
  {}

  lemma ReachesOn(s: PrivateScope, oracle: nat -> PrivateOutcome, pc: Pc, zone: Option<PrivateZone>, t: nat,
                  pc1: Pc, zone1: Option<PrivateZone>, t1: nat, pc2: Pc, zone2: Option<PrivateZone>, t2: nat)
    requires Reaches(s, oracle, pc, zone, t, pc1, zone1, t1) && Reaches(s, oracle, pc1, zone1, t1, pc2, zone2, t2)
    ensures Reaches(s, oracle, pc, zone, t, pc2, zone2, t2)
  {
    assert Feed(oracle, t, t1) + Feed(oracle, t1, t2) == Feed(oracle, t, t2);
    StepsAppend(s, pc, zone, Feed(oracle, t, t1), Feed(oracle, t1, t2));
  }

  predicate IsWrite(pc: Pc) {
    pc.CreateZone? || pc.DeleteLink? || pc.CreateLink? || pc.WriteSets? || pc.DropLink? || pc.DropZone?
  }

  function Writes(s: PrivateScope, pc: Pc, zone: Option<PrivateZone>, outcomes: seq<PrivateOutcome>): seq<Pc>
    decreases outcomes
  {
    if outcomes == [] then []
    else (if IsWrite(pc) then [pc] else []) +
         Writes(s, Next(s, pc, zone, outcomes[0]), Effect(s, pc, zone, outcomes[0]), outcomes[1..])
  }

  // ----- histories: reconcile and delete runs one after the other, each cut anywhere -----

  datatype Action = Restart(delete: bool) | Call(outcome: PrivateOutcome)

  datatype System = System(zone: Option<PrivateZone>, delete: bool, pc: Pc)

  /** A restart stands for a crash at any point, and for the start of the next run. */
  function Do(s: PrivateScope, sys: System, a: Action): System {
    match a
    case Restart(delete) => System(sys.zone, delete, Begin(delete))
    case Call(o) => System(Effect(s, sys.pc, sys.zone, o), sys.delete, Next(s, sys.pc, sys.zone, o))
  }

  function Exec(s: PrivateScope, sys: System, actions: seq<Action>): System
    decreases actions
  {
    if actions == [] then sys else Exec(s, Do(s, sys, actions[0]), actions[1..])
  }

  predicate OneLinkPerVnet(zone: Option<PrivateZone>) {
    zone.Some? ==> forall a, b | a in zone.value.links && b in zone.value.links
                                 && zone.value.links[a].vnet == zone.value.links[b].vnet :: a == b
  }

  /** Where the zone's record sets started. */
  function StartRecords(zone0: Option<PrivateZone>): Records {
    if zone0.Some? then zone0.value.records else NEW_ZONE.records
  }

  /** A link that no run touches: to another network, and not of the operator's name. */
  predicate Foreign(s: PrivateScope, name: string, link: Link) { name != s.LinkName() && link.vnet != s.vnet }

  /** The zone has a link that keeps it from ever being deleted. */
  predicate Spared(s: PrivateScope, zone0: Option<PrivateZone>) {
    zone0.Some? && exists n | n in zone0.value.links :: Foreign(s, n, zone0.value.links[n])
  }

  predicate Heading(s: PrivateScope, records: Records, start: Records) {
    Overlay(records, s.Goals()) == Overlay(start, s.Goals())
  }

  /** What every prefix of a history keeps, given where it started and whether it has delete runs. */
  predicate Kept(s: PrivateScope, zone0: Option<PrivateZone>, deletes: bool, zone: Option<PrivateZone>) {
    && (OneLinkPerVnet(zone0) ==> OneLinkPerVnet(zone))
    && (zone0.Some? && (!deletes || Spared(s, zone0)) ==> zone.Some?)
    && (zone0.Some? ==> forall n | n in zone0.value.links && zone0.value.links[n].vnet != s.vnet && (deletes ==> n != s.LinkName()) ::
                          zone.Some? && n in zone.value.links && zone.value.links[n] == zone0.value.links[n])
    && (zone.Some? ==>
          && WellTyped(zone.value.records)
          && (|| Heading(s, zone.value.records, StartRecords(zone0))
              || (deletes && !Spared(s, zone0) && Heading(s, zone.value.records, NEW_ZONE.records))))
  }

  predicate Snapshot(s: PrivateScope, listing: seq<RecordSet>, zone: Option<PrivateZone>) {
    zone.Some? && forall d | d in s.Goals() && !NeedsWrite(d, listing) :: Holds(zone.value.records, d)
  }

  /** What a reconcile run relies on; past the link step the operator's link is there. */
  predicate Progress(s: PrivateScope, zone0: Option<PrivateZone>, zone: Option<PrivateZone>, pc: Pc) {
    match pc
    case ListRecords => true
    case CreateZone => zone.None?
    case ListLinks(listing) => Snapshot(s, listing, zone)
    case DeleteLink(listing, name) =>
      Snapshot(s, listing, zone) && !HasOwnLink(s, zone.value.links) && name in zone.value.links && zone.value.links[name].vnet == s.vnet
    case CreateLink(listing) =>
      && Snapshot(s, listing, zone) && !HasOwnLink(s, zone.value.links)
      && (OneLinkPerVnet(zone0) ==> forall n | n in zone.value.links :: zone.value.links[n].vnet != s.vnet)
    case GetZone(listing) => Snapshot(s, listing, zone) && HasOwnLink(s, zone.value.links)
    case WriteSets(pending) =>
      && zone.Some? && HasOwnLink(s, zone.value.links) && pending != []
      && (forall d | d in pending :: d in s.Goals())
      && (forall d | d in s.Goals() :: d in pending || Holds(zone.value.records, d))
    case Stopped(ok) => ok ==> zone.Some? && HasOwnLink(s, zone.value.links) && AllHold(zone.value.records, s.Goals())
    case _ => false
  }

  /** What a delete run relies on: its link is gone before the zone goes. */
  predicate DeleteProgress(s: PrivateScope, zone: Option<PrivateZone>, pc: Pc) {
    match pc
    case DropLink => true
    case DropZone => zone.Some? ==> s.LinkName() !in zone.value.links
    case Stopped(ok) => ok ==> zone.None?
    case _ => false
  }

  predicate RunOk(s: PrivateScope, zone0: Option<PrivateZone>, deletes: bool, sys: System) {
    if sys.delete then deletes && DeleteProgress(s, sys.zone, sys.pc) else Progress(s, zone0, sys.zone, sys.pc)
  }

  lemma GoalsAreGood(s: PrivateScope)
    ensures AllDesirable(s.Goals()) && Consistent(s.Goals())
  {}

  lemma SnapshotOfListing(s: PrivateScope, zone: PrivateZone, listing: seq<RecordSet>)
    requires WellTyped(zone.records) && IsListing(OnlyA(zone.records), listing)
    ensures Snapshot(s, listing, Some(zone))
  {}

  lemma PendingIsNeeded(s: PrivateScope, listing: seq<RecordSet>)
    ensures forall d :: d in Pending(s, listing) <==> d in s.Goals() && NeedsWrite(d, listing)
  {
    MissingIsFilter(s.DesiredA(), listing);
    MissingIsFilter(s.DesiredCname(), listing);
  }

  lemma StepKeeps(s: PrivateScope, zone0: Option<PrivateZone>, deletes: bool, zone: Option<PrivateZone>, pc: Pc, o: PrivateOutcome)
    requires Kept(s, zone0, deletes, zone) && Progress(s, zone0, zone, pc)
    ensures Kept(s, zone0, deletes, Effect(s, pc, zone, o))
  {
    GoalsAreGood(s);
    if pc.WriteSets? && zone.Some? {
      assert Desirable(pc.pending[0]);
      GoalWriteIsNeutral(zone.value.records, s.Goals(), pc.pending[0]);
    }
  }

  lemma ListStepProgresses(s: PrivateScope, zone0: Option<PrivateZone>, deletes: bool, zone: Option<PrivateZone>, pc: Pc, o: PrivateOutcome)
    requires Kept(s, zone0, deletes, zone) && Progress(s, zone0, zone, pc) && o.reply.Done? && (pc.ListRecords? || pc.CreateZone?)
    ensures Progress(s, zone0, Effect(s, pc, zone, o), Next(s, pc, zone, o))
  {}

  lemma LinkStepProgresses(s: PrivateScope, zone0: Option<PrivateZone>, deletes: bool, zone: Option<PrivateZone>, pc: Pc, o: PrivateOutcome)
    requires Kept(s, zone0, deletes, zone) && Progress(s, zone0, zone, pc) && o.reply.Done?
    requires pc.ListLinks? || pc.DeleteLink? || pc.CreateLink?
    ensures Progress(s, zone0, Effect(s, pc, zone, o), Next(s, pc, zone, o))
  {}

  lemma RecordStepProgresses(s: PrivateScope, zone0: Option<PrivateZone>, deletes: bool, zone: Option<PrivateZone>, pc: Pc, o: PrivateOutcome)
    requires Kept(s, zone0, deletes, zone) && Progress(s, zone0, zone, pc) && o.reply.Done? && (pc.GetZone? || pc.WriteSets?)
    ensures Progress(s, zone0, Effect(s, pc, zone, o), Next(s, pc, zone, o))
  {
    if pc.GetZone? {
      PendingIsNeeded(s, pc.listing);
    } else {
      GoalsAreGood(s);
      PendingShrinks(zone.value.records, s.Goals(), pc.pending);
    }
  }

  lemma StepProgresses(s: PrivateScope, zone0: Option<PrivateZone>, deletes: bool, zone: Option<PrivateZone>, pc: Pc, o: PrivateOutcome)
    requires Kept(s, zone0, deletes, zone) && Progress(s, zone0, zone, pc)
    ensures Progress(s, zone0, Effect(s, pc, zone, o), Next(s, pc, zone, o))
  {
    if o.reply.Done? {
      if pc.ListRecords? || pc.CreateZone? {
        ListStepProgresses(s, zone0, deletes, zone, pc, o);
      } else if pc.ListLinks? || pc.DeleteLink? || pc.CreateLink? {
        LinkStepProgresses(s, zone0, deletes, zone, pc, o);
      } else if pc.GetZone? || pc.WriteSets? {
        RecordStepProgresses(s, zone0, deletes, zone, pc, o);
      }
    } else if pc.Stopped? {
      assert Effect(s, pc, zone, o) == zone;
    }
  }

  lemma DeleteStepKeeps(s: PrivateScope, zone0: Option<PrivateZone>, zone: Option<PrivateZone>, pc: Pc, o: PrivateOutcome)
    requires Kept(s, zone0, true, zone) && DeleteProgress(s, zone, pc)
    ensures Kept(s, zone0, true, Effect(s, pc, zone, o))
    ensures DeleteProgress(s, Effect(s, pc, zone, o), Next(s, pc, zone, o))
  {
    if pc.DropZone? && Spared(s, zone0) {
      var n :| n in zone0.value.links && Foreign(s, n, zone0.value.links[n]);
      assert n in zone.value.links;
    }
    if pc.DropZone? && zone0.Some? {
      forall n | n in zone0.value.links && Foreign(s, n, zone0.value.links[n]) ensures Spared(s, zone0) {}
    }
  }

  lemma {:induction false} HistoryKeeps(s: PrivateScope, zone0: Option<PrivateZone>, deletes: bool, sys: System, actions: seq<Action>)
    requires Kept(s, zone0, deletes, sys.zone) && RunOk(s, zone0, deletes, sys)
    requires Restart(true) in actions ==> deletes
    ensures var end := Exec(s, sys, actions); Kept(s, zone0, deletes, end.zone) && RunOk(s, zone0, deletes, end)
    decreases actions
  {
    if actions != [] {
      var a := actions[0];
      if a.Call? {
        if sys.delete {
          DeleteStepKeeps(s, zone0, sys.zone, sys.pc, a.outcome);
        } else {
          StepKeeps(s, zone0, deletes, sys.zone, sys.pc, a.outcome);
          StepProgresses(s, zone0, deletes, sys.zone, sys.pc, a.outcome);
        }
      }
      HistoryKeeps(s, zone0, deletes, Do(s, sys, a), actions[1..]);
    }
  }

  /**
   Any number of reconcile and delete runs, each cut anywhere: at most one link per network; links to
   other networks are untouched, but for the operator's name, which a delete run takes; past
   the link step of a reconcile run the operator's link is there; a successful delete run leaves no zone.
   */
  lemma PrivateHistories(s: PrivateScope, zone0: Option<PrivateZone>, actions: seq<Action>)
    requires zone0.Some? ==> WellTyped(zone0.value.records)
    ensures var end := Exec(s, System(zone0, false, Begin(false)), actions);
            var deletes := Restart(true) in actions;
            && (OneLinkPerVnet(zone0) ==> OneLinkPerVnet(end.zone))
            && (zone0.Some? ==>
                  forall n | n in zone0.value.links && zone0.value.links[n].vnet != s.vnet && (deletes ==> n != s.LinkName()) ::
                    end.zone.Some? && n in end.zone.value.links && end.zone.value.links[n] == zone0.value.links[n])
            && (!end.delete && (end.pc.GetZone? || end.pc.WriteSets? || end.pc == Stopped(true)) ==>
                  && end.zone.Some? && HasOwnLink(s, end.zone.value.links)
                  && ((forall n | n in end.zone.value.links :: end.zone.value.links[n].id != s.clientId) ==>
                        s.LinkName() in end.zone.value.links))
            && (end.delete && end.pc == Stopped(true) ==> end.zone.None?)
  {
    HistoryKeeps(s, zone0, Restart(true) in actions, System(zone0, false, Begin(false)), actions);
  }

  /**
   After a successful reconcile run the zone holds the desired sets over the sets it started from,
   whatever happened before; those are the sets of a new zone if a delete run may have dropped the old one.
   */
  lemma PrivateSuccessMeansConverged(s: PrivateScope, zone0: Option<PrivateZone>, actions: seq<Action>)
    requires zone0.Some? ==> WellTyped(zone0.value.records)
    ensures var end := Exec(s, System(zone0, false, Begin(false)), actions);
            !end.delete && end.pc == Stopped(true) ==>
              && end.zone.Some? && AllHold(end.zone.value.records, s.Goals())
              && (|| end.zone.value.records == Overlay(StartRecords(zone0), s.Goals())
                  || (Restart(true) in actions && !Spared(s, zone0)
                      && end.zone.value.records == Overlay(NEW_ZONE.records, s.Goals())))
  {
    HistoryKeeps(s, zone0, Restart(true) in actions, System(zone0, false, Begin(false)), actions);
    var end := Exec(s, System(zone0, false, Begin(false)), actions);
    if !end.delete && end.pc == Stopped(true) {
      GoalsAreGood(s);
      OverlayPart(end.zone.value.records, [], s.Goals());
    }
  }

  /** What the zone answers after a success: the private API server and ingress addresses, and the wildcard's target. */
  lemma PrivateZoneServes(s: PrivateScope, records: Records)
    requires AllHold(records, s.Goals())
    ensures var target := if s.wildcardTarget == "" then "ingress" else s.wildcardTarget;
            && At(records, RecordKey(CNAME, "*")) == Some(Payload(300, [], Some(target + "." + (s.clusterName + "." + s.baseDomain)), []))
            && (s.ApiServerIp() != "" ==> At(records, RecordKey(A, "apiserver")) == Some(Payload(300, [s.ApiServerIp()], None, [])))
            && (s.mcIngressIp != "" ==> At(records, RecordKey(A, "ingress")) == Some(Payload(300, [s.mcIngressIp], None, [])))
  {
    assert s.DesiredCname()[0] in s.Goals();
    if s.ApiServerIp() != "" { assert ARecord("apiserver", s.ApiServerIp()) in s.Goals(); }
    if s.mcIngressIp != "" { assert ARecord("ingress", s.mcIngressIp) in s.Goals(); }
  }

  /** Among the endpoints of the name that have an address, the last one's first address counts. */
  lemma {:induction false} EndpointIpIsLast(endpoints: seq<Endpoint>, name: string, i: nat)
    requires i <= |endpoints|
    requires forall j | i <= j < |endpoints| :: endpoints[j].name != name || endpoints[j].addresses == []
    ensures i == 0 ==> EndpointIp(endpoints, name) == ""
    ensures i > 0 && endpoints[i - 1].name == name && endpoints[i - 1].addresses != [] ==>
              EndpointIp(endpoints, name) == endpoints[i - 1].addresses[0]
  {
    if i < |endpoints| { EndpointIpIsLast(endpoints[..|endpoints| - 1], name, i); }
  }

  /** An endpoint of this cluster's private link that has an address. */
  predicate Names(clusterName: string, e: Endpoint) {
    e.name == clusterName + "-api-privatelink-privateendpoint" && |e.addresses| > 0
  }

  /** Endpoint `j` of subnet `i` has an address for this cluster, and no later one does. */
  predicate IsLastNamed(s: PrivateScope, i: nat, j: nat) {
    && i < |s.subnets| && j < |s.subnets[i]| && Names(s.clusterName, s.subnets[i][j])
    && (forall l | j < l < |s.subnets[i]| :: !Names(s.clusterName, s.subnets[i][l]))
    && (forall k | i < k < |s.subnets| :: forall e | e in s.subnets[k] :: !Names(s.clusterName, e))
  }

  /** The annotation takes precedence; otherwise the last endpoint of the cluster's name with an address, over all subnets, counts. */
  lemma {:induction false} ApiServerIpMeaning(s: PrivateScope)
    ensures s.apiServerIp != "" ==> s.ApiServerIp() == s.apiServerIp
    ensures s.apiServerIp == "" && (forall subnet, e | subnet in s.subnets && e in subnet :: !Names(s.clusterName, e)) ==> s.ApiServerIp() == ""
    ensures s.apiServerIp == "" ==>
              forall i: nat, j: nat | IsLastNamed(s, i, j) :: s.ApiServerIp() == s.subnets[i][j].addresses[0]
    decreases |s.subnets|
  {
    var name := s.clusterName + "-api-privatelink-privateendpoint";
    if s.apiServerIp == "" && s.subnets != [] {
      var n := |s.subnets| - 1;
      var before, last := s.(subnets := s.subnets[..n]), s.subnets[n];
      ApiServerIpMeaning(before);
      FlatAppend(before.subnets, last);
      assert s.subnets == before.subnets + [last];
      assert forall subnet | subnet in before.subnets :: subnet in s.subnets;
      if forall e | e in last :: !Names(s.clusterName, e) {
        forall j | 0 <= j < |last| ensures last[j].name != name || last[j].addresses == [] { assert !Names(s.clusterName, last[j]); }
        EndpointIpOfConcat(Flat(before.subnets), last, name, 0);
        forall i: nat, j: nat | IsLastNamed(s, i, j) ensures s.ApiServerIp() == s.subnets[i][j].addresses[0] {
          assert IsLastNamed(before, i, j);
        }
      } else {
        forall i: nat, j: nat | IsLastNamed(s, i, j) ensures s.ApiServerIp() == s.subnets[i][j].addresses[0] {
          EndpointIpOfConcat(Flat(before.subnets), last, name, j + 1);
        }
      }
    }
  }

  lemma {:induction false} EndpointIpOfConcat(p: seq<Endpoint>, q: seq<Endpoint>, name: string, i: nat)
    requires i <= |q| && forall j | i <= j < |q| :: q[j].name != name || q[j].addresses == []
    ensures i == 0 ==> EndpointIp(p + q, name) == EndpointIp(p, name)
    ensures i > 0 && q[i - 1].name == name && q[i - 1].addresses != [] ==> EndpointIp(p + q, name) == q[i - 1].addresses[0]
  {
    if i < |q| {
      EndpointIpOfConcat(p, q[..|q| - 1], name, i);
      assert (p + q)[..|p + q| - 1] == p + q[..|q| - 1];
    } else if i == 0 {
      assert p + q == p;
    }
  }

  lemma {:induction false} FlatAppend<T>(lists: seq<seq<T>>, last: seq<T>)
    ensures Flat(lists + [last]) == Flat(lists) + last
  {
    if lists == [] {
      assert (lists + [last])[1..] == [];
    } else {
      FlatAppend(lists[1..], last);
      assert (lists + [last])[1..] == lists[1..] + [last];
    }
  }

  /** No other names are desired: the wildcard always, the two A sets where there is an address. */
  lemma PrivateGoalKeys(s: PrivateScope, k: RecordKey)
    ensures (exists d | d in s.Goals() :: d.key == k) <==>
              || k == RecordKey(CNAME, "*")
              || (k == RecordKey(A, "apiserver") && s.ApiServerIp() != "")
              || (k == RecordKey(A, "ingress") && s.mcIngressIp != "")
  {
    assert s.DesiredCname()[0] in s.Goals();
    if s.ApiServerIp() != "" { assert ARecord("apiserver", s.ApiServerIp()) in s.Goals(); }
    if s.mcIngressIp != "" { assert ARecord("ingress", s.mcIngressIp) in s.Goals(); }
  }

  /**
   A run cut between deleting the old link and creating the new one is repaired: the next run that
   lists the links goes straight to creating, and the zone then has exactly the operator's link to the network.
   */
  lemma CutReplacementIsRepaired(s: PrivateScope, zone: PrivateZone, listing: seq<RecordSet>, name: string,
                                 cut: PrivateOutcome, o: PrivateOutcome, p: PrivateOutcome)
    requires OneLinkPerVnet(Some(zone)) && !HasOwnLink(s, zone.links) && name in zone.links && zone.links[name].vnet == s.vnet
    requires !cut.reply.Failed? && o.reply.Done? && p.reply.Done?
    requires IsLinkListing(zone.links - {name}, o.linkNames)
    ensures var between := Effect(s, DeleteLink(listing, name), Some(zone), cut);
            && between.Some? && Next(s, ListLinks(listing), between, o) == CreateLink(listing)
            && var repaired := Effect(s, CreateLink(listing), between, p);
            && Next(s, CreateLink(listing), between, p) == GetZone(listing)
            && repaired.Some? && repaired.value.links == (zone.links - {name})[s.LinkName() := Link(p.linkId, s.vnet)]
            && forall n | n in repaired.value.links && repaired.value.links[n].vnet == s.vnet :: n == s.LinkName()
  {}

  // ----- steady state -----

  predicate Settled(s: PrivateScope, zone: PrivateZone) {
    HasOwnLink(s, zone.links) && WellTyped(zone.records) && AllHold(zone.records, s.Goals())
  }

  /** Where a run over a settled zone can be, and what it still has to write. */
  predicate Idle(s: PrivateScope, pc: Pc) {
    match pc
    case ListRecords => true
    case ListLinks(listing) => Pending(s, listing) == s.DesiredCname()
    case GetZone(listing) => Pending(s, listing) == s.DesiredCname()
    case WriteSets(pending) => pending == s.DesiredCname()
    case Stopped(_) => true
    case _ => false
  }

  lemma OnlyALeads(records: Records, listing: seq<RecordSet>, desired: seq<RecordSet>)
    requires IsListing(OnlyA(records), listing) && forall d | d in desired :: d.key.rtype.A?
    ensures AllLead(listing, desired)
  {
    forall d | d in desired ensures Leads(listing, d) {
      var current := Lookup(listing, d.key.name);
      if current.Some? { assert Holds(OnlyA(records), current.value); }
    }
  }

  /** No CNAME set is ever in the listing, so the wildcard is scheduled in every run. */
  lemma WildcardAlwaysMissing(s: PrivateScope, records: Records, listing: seq<RecordSet>)
    requires WellTyped(records) && IsListing(OnlyA(records), listing)
    ensures Missing(s.DesiredCname(), listing) == s.DesiredCname()
  {}

  lemma SettledListing(s: PrivateScope, zone: PrivateZone, listing: seq<RecordSet>)
    requires Settled(s, zone) && IsListing(OnlyA(zone.records), listing)
    ensures Pending(s, listing) == s.DesiredCname()
  {
    GoalsAreGood(s);
    OnlyALeads(zone.records, listing, s.DesiredA());
    forall d | d in s.DesiredA() ensures Holds(OnlyA(zone.records), d) { assert d in s.Goals(); }
    OnlyNotLeadingMissing(OnlyA(zone.records), listing, s.DesiredA());
    WildcardAlwaysMissing(s, zone.records, listing);
  }

  lemma RewriteIsNoChange(s: PrivateScope, zone: PrivateZone)
    requires Settled(s, zone)
    ensures var d := s.DesiredCname()[0]; zone.records[d.key := d.props] == zone.records
  {
    assert s.DesiredCname()[0] in s.Goals();
  }

  lemma IdleStep(s: PrivateScope, zone: PrivateZone, pc: Pc, o: PrivateOutcome)
    requires Settled(s, zone) && Idle(s, pc)
    ensures Effect(s, pc, Some(zone), o) == Some(zone) && Idle(s, Next(s, pc, Some(zone), o))
  {
    assert s.DesiredCname()[1..] == [];
    if pc.ListRecords? {
      if IsListing(OnlyA(zone.records), o.listing) { SettledListing(s, zone, o.listing); }
    } else if pc.WriteSets? {
      RewriteIsNoChange(s, zone);
    }
  }

  lemma {:induction false} StoppedStays(s: PrivateScope, pc: Pc, zone: Option<PrivateZone>, outcomes: seq<PrivateOutcome>)
    ensures pc.Stopped? ==> Steps(s, pc, zone, outcomes) == (pc, zone) && Writes(s, pc, zone, outcomes) == []
    decreases outcomes
  {
    if outcomes != [] && pc.Stopped? { StoppedStays(s, pc, zone, outcomes[1..]); }
  }

  /** Once settled, a run changes nothing, and its one mutating call, needed for success, is the "*" CNAME. */
  lemma {:induction false} SettledRunWritesWildcardOnly(s: PrivateScope, zone: PrivateZone, pc: Pc, outcomes: seq<PrivateOutcome>)
    requires Settled(s, zone) && Idle(s, pc)
    ensures Steps(s, pc, Some(zone), outcomes).1 == Some(zone)
    ensures var writes := Writes(s, pc, Some(zone), outcomes);
            && (writes == [] || writes == [WriteSets(s.DesiredCname())])
            && (!pc.Stopped? && Steps(s, pc, Some(zone), outcomes).0 == Stopped(true) ==> writes != [])
    decreases outcomes
  {
    if outcomes != [] {
      var o := outcomes[0];
      var pc' := Next(s, pc, Some(zone), o);
      IdleStep(s, zone, pc, o);
      assert s.DesiredCname()[1..] == [];
      SettledRunWritesWildcardOnly(s, zone, pc', outcomes[1..]);
      StoppedStays(s, pc', Some(zone), outcomes[1..]);
    }
  }

  // ----- deletion -----

  lemma {:induction false} DeletionSteps(s: PrivateScope, pc: Pc, zone: Option<PrivateZone>, outcomes: seq<PrivateOutcome>)
    requires DeleteProgress(s, zone, pc)
    ensures var (pc', end) := Steps(s, pc, zone, outcomes);
            && (pc' == Stopped(true) ==> end.None?)
            && (zone.Some? && end.Some? ==>
                  && end.value.records == zone.value.records
                  && end.value.links - {s.LinkName()} == zone.value.links - {s.LinkName()})
            && (zone.Some? && end.None? ==> zone.value.links - {s.LinkName()} == map[])
            && (zone.None? ==> end.None?)
    decreases outcomes
  {
    if outcomes != [] {
      var o := outcomes[0];
      var pc', zone' := Next(s, pc, zone, o), Effect(s, pc, zone, o);
      DeletionSteps(s, pc', zone', outcomes[1..]);
      if zone.Some? && zone'.Some? {
        assert zone'.value.links - {s.LinkName()} == zone.value.links - {s.LinkName()};
      }
    }
  }

  /**
   A delete run, wherever it stops: of a zone that stays only the operator's link can be gone; the
   zone goes only if it had no other link; and success means the zone is gone.
   */
  lemma DeletionIsOrdered(s: PrivateScope, zone: Option<PrivateZone>, outcomes: seq<PrivateOutcome>)
    ensures var (pc, end) := Steps(s, Begin(true), zone, outcomes);
            && (pc == Stopped(true) ==> end.None?)
            && (zone.Some? && (exists n | n in zone.value.links :: n != s.LinkName()) ==> end.Some? && pc != Stopped(true))
            && (zone.Some? && end.Some? ==>
                  && end.value.records == zone.value.records
                  && end.value.links - {s.LinkName()} == zone.value.links - {s.LinkName()})
  {
    DeletionSteps(s, Begin(true), zone, outcomes);
    if zone.Some? && exists n | n in zone.value.links :: n != s.LinkName() {
      var n :| n in zone.value.links && n != s.LinkName();
      var rest := zone.value.links - {s.LinkName()};
      assert n in rest && rest != map[];
      assert Steps(s, DropLink, zone, outcomes).1.Some?;
    }
  }
}
