/**
 One run of the public DNS reconciler as a step machine: every step is one client call, whose
 outcome the environment picks (azure/services/dns/dns.go, resourcegroup.go, nsrecords.go).
 */
module PublicRun {
  import opened AzureModel
  import opened DesiredRecords
  import opened RecordDiff

  const NS_TTL := 3600

  /** Everything a run is told about its cluster. */
  datatype Scope = Scope(
    name: string,
    kind: Kind,
    subscription: string,
    baseDomain: string,
    baseGroup: GroupId,
    tags: map<string, string>,
    location: string,
    managementGroup: Option<string>,
    wildcardTarget: string,
    address: Option<string>,
    ingress: Option<seq<Service>>,
    gateway: Option<seq<Service>>)
  {
    function ClusterDomain(): string { name + "." + baseDomain }
    function ResourceGroup(): GroupId { GroupId(subscription, name) }
    function ClusterZone(): ZoneId { ZoneId(ResourceGroup(), ClusterDomain()) }
    function BaseZone(): ZoneId { ZoneId(baseGroup, baseDomain) }
    function NsKey(): RecordKey { RecordKey(NS, name) }
    function WildcardFQDN(): string {
      (if wildcardTarget == "" then "ingress" else wildcardTarget) + "." + ClusterDomain()
    }
    function DesiredA(): Option<seq<RecordSet>> {
      DesiredARecords(kind, ClusterDomain(), address, ingress, gateway)
    }
    function DesiredCname(): seq<RecordSet> { [WildcardRecord(WildcardFQDN())] }
  }

  /** The call a run is about to make, with the locals that later calls need. */
  datatype Pc =
    | GetGroup
    | GetManagementGroup
    | WriteGroup(group: Group)
    | ListZone
    | CreateZone
    | GetZone(listing: seq<RecordSet>)
    | ListBase(listing: seq<RecordSet>, servers: seq<string>)
    | WriteNs(listing: seq<RecordSet>, servers: seq<string>)
    | WriteSets(pending: seq<RecordSet>)
    | DeleteNs
    | DeleteGroup
    | Stopped(ok: bool)

  function Begin(s: Scope, delete: bool): Pc {
    if delete then DeleteNs else if s.kind.AzureCluster? then ListZone else GetGroup
  }

  function NsSet(s: Scope, servers: seq<string>): RecordSet {
    RecordSet(s.NsKey(), Payload(NS_TTL, [], None, servers))
  }

  function WriteRest(pending: seq<RecordSet>): Pc {
    if pending == [] then Stopped(true) else WriteSets(pending)
  }

  /** The A and CNAME diffs, both taken against the listing made at the start of the run. */
  function Diff(s: Scope, listing: seq<RecordSet>): Pc {
    match s.DesiredA()
    case None => Stopped(false)
    case Some(desired) => WriteRest(Missing(desired, listing) + Missing(s.DesiredCname(), listing))
  }

  function Next(s: Scope, pc: Pc, az: Azure, o: Outcome): Pc {
    if pc.Stopped? then pc
    else if !o.reply.Done? then Stopped(false)
    else match pc
      case GetGroup =>
        if s.ResourceGroup() in az.groups then
          var group := az.groups[s.ResourceGroup()];
          if group.tags == s.tags then ListZone else WriteGroup(group.(tags := group.tags + s.tags))
        else if s.location != "" then WriteGroup(Group(s.location, s.tags))
        else if s.managementGroup.None? then Stopped(false)
        else GetManagementGroup
      case GetManagementGroup =>
        if s.managementGroup.None? then Stopped(false)
        else
          var m := GroupId(s.subscription, s.managementGroup.value);
          if m in az.groups then WriteGroup(Group(az.groups[m].location, s.tags)) else Stopped(false)
      case WriteGroup(_) => ListZone
      case ListZone =>
        if s.ResourceGroup() !in az.groups then Stopped(false)
        else if s.ClusterZone() !in az.zones then CreateZone
        else if IsListing(az.zones[s.ClusterZone()].records, o.listing) then GetZone(o.listing)
        else Stopped(false)
      case CreateZone => if s.ResourceGroup() in az.groups then GetZone([]) else Stopped(false)
      case GetZone(listing) =>
        if s.ClusterZone() in az.zones then ListBase(listing, az.zones[s.ClusterZone()].servers) else Stopped(false)
      case ListBase(listing, servers) =>
        if s.BaseZone() in az.zones then WriteNs(listing, servers) else Stopped(false)
      case WriteNs(listing, _) => if s.BaseZone() in az.zones then Diff(s, listing) else Stopped(false)
      case WriteSets(pending) =>
        if s.ClusterZone() in az.zones && pending != [] then WriteRest(pending[1..]) else Stopped(false)
      case DeleteNs =>
        if s.BaseZone() !in az.zones then Stopped(false)
        else if s.kind.AzureCluster? then Stopped(true)
        else DeleteGroup
      case DeleteGroup => Stopped(true)
  }

  /** What the call at `pc` leaves behind if it takes effect. */
  function Write(s: Scope, pc: Pc, az: Azure, o: Outcome): Azure {
    match pc
    case WriteGroup(group) => PutGroup(az, s.ResourceGroup(), group)
    case CreateZone => PutZone(az, s.ClusterZone(), o.servers)
    case WriteNs(_, servers) => PutRecord(az, s.BaseZone(), NsSet(s, servers))
    case WriteSets(pending) => if pending == [] then az else PutRecord(az, s.ClusterZone(), pending[0])
    case DeleteNs => DropRecord(az, s.BaseZone(), s.NsKey())
    case DeleteGroup => DropGroup(az, s.ResourceGroup())
    case _ => az
  }

  function Effect(s: Scope, pc: Pc, az: Azure, o: Outcome): Azure {
    if o.reply.Failed? then az else Write(s, pc, az, o)
  }

  /** A run fed with a list of outcomes; it may have stopped before they are used up. */
  function Steps(s: Scope, pc: Pc, az: Azure, outcomes: seq<Outcome>): (Pc, Azure)
    decreases outcomes
  {
    if outcomes == [] then (pc, az)
    else Steps(s, Next(s, pc, az, outcomes[0]), Effect(s, pc, az, outcomes[0]), outcomes[1..])
  }

  lemma {:induction false} StoppedStays(s: Scope, pc: Pc, az: Azure, outcomes: seq<Outcome>)
    ensures pc.Stopped? ==> Steps(s, pc, az, outcomes) == (pc, az)
    decreases outcomes
  {
    if outcomes != [] && pc.Stopped? { StoppedStays(s, pc, az, outcomes[1..]); }
  }

  /** The listing a run works with: what it was answered, or nothing for a zone it created. */
  function Seen(s: Scope, pc: Pc, az: Azure, outcomes: seq<Outcome>): seq<RecordSet>
    decreases outcomes
  {
    match pc
    case GetZone(listing) => listing
    case ListBase(listing, _) => listing
    case WriteNs(listing, _) => listing
    case _ =>
      if outcomes == [] then []
      else Seen(s, Next(s, pc, az, outcomes[0]), Effect(s, pc, az, outcomes[0]), outcomes[1..])
  }

  predicate IsWrite(pc: Pc) {
    pc.WriteGroup? || pc.CreateZone? || pc.WriteNs? || pc.WriteSets? || pc.DeleteNs? || pc.DeleteGroup?
  }

  /** The mutating calls among those steps, in order. */
  function Writes(s: Scope, pc: Pc, az: Azure, outcomes: seq<Outcome>): seq<Pc>
    decreases outcomes
  {
    if outcomes == [] then []
    else (if IsWrite(pc) then [pc] else []) +
         Writes(s, Next(s, pc, az, outcomes[0]), Effect(s, pc, az, outcomes[0]), outcomes[1..])
  }

  lemma {:induction false} StepsAppend(s: Scope, pc: Pc, az: Azure, p: seq<Outcome>, q: seq<Outcome>)
    ensures Steps(s, pc, az, p + q) == var (pc', az') := Steps(s, pc, az, p); Steps(s, pc', az', q)
    decreases p
  {
    if p == [] {
      assert p + q == q;
    } else {
      StepsAppend(s, Next(s, pc, az, p[0]), Effect(s, pc, az, p[0]), p[1..], q);
      assert (p + q)[1..] == p[1..] + q;
    }
  }

  /** The oracle's outcomes from time `t` to `t'`. */
  function Feed(oracle: nat -> Outcome, t: nat, t': nat): seq<Outcome>
    requires t <= t'
  {
    seq(t' - t, i requires 0 <= i => oracle(t + i))
  }

  /** Fed with the oracle's outcomes from time `t` to `t'`, the run gets from (pc, az) to (pc', az'). */
  ghost predicate Reaches(s: Scope, oracle: nat -> Outcome, pc: Pc, az: Azure, t: nat, pc': Pc, az': Azure, t': nat) {
    t <= t' && Steps(s, pc, az, Feed(oracle, t, t')) == (pc', az')
  }

  lemma OneStep(s: Scope, oracle: nat -> Outcome, pc: Pc, az: Azure, t: nat)
    ensures Reaches(s, oracle, pc, az, t, Next(s, pc, az, oracle(t)), Effect(s, pc, az, oracle(t)), t + 1)
  {}

  lemma ReachesOn(s: Scope, oracle: nat -> Outcome, pc: Pc, az: Azure, t: nat, pc1: Pc, az1: Azure, t1: nat,
                pc2: Pc, az2: Azure, t2: nat)
    requires Reaches(s, oracle, pc, az, t, pc1, az1, t1) && Reaches(s, oracle, pc1, az1, t1, pc2, az2, t2)
    ensures Reaches(s, oracle, pc, az, t, pc2, az2, t2)
  {
    assert Feed(oracle, t, t1) + Feed(oracle, t1, t2) == Feed(oracle, t, t2);
    StepsAppend(s, pc, az, Feed(oracle, t, t1), Feed(oracle, t1, t2));
  }

  /** A run in progress. */
  datatype Run = Run(scope: Scope, pc: Pc)
}
