/**
 What any number of interrupted runs for one cluster, with unchanged input, makes of Azure
 (azure/services/dns/dns.go, arecords.go, cnamerecords.go, resourcegroup.go).
 */
module Convergence {
  import opened AzureModel
  import opened DesiredRecords
  import opened PublicRun
  import opened RecordDiff
  import opened Clusters
  import opened Isolation

  function Goals(s: Scope): seq<RecordSet>
    requires s.DesiredA().Some?
  {
    s.DesiredA().value + s.DesiredCname()
  }

  predicate Sane(s: Scope) { s.DesiredA().Some? && Consistent(s.DesiredA().value) }

  lemma GoalsAreDesirable(s: Scope)
    requires s.DesiredA().Some?
    ensures AllDesirable(Goals(s)) && forall d | d in s.DesiredA().value :: d.key.rtype.A?
    ensures Consistent(s.DesiredA().value) ==> Consistent(Goals(s))
  {
    DesiredShape(s.kind, s.ClusterDomain(), s.address, s.ingress, s.gateway);
    assert forall d | d in s.DesiredA().value :: SingleAddress(d);
  }

  function TagsOf(s: Scope, az: Azure): map<string, string> {
    if s.ResourceGroup() in az.groups then az.groups[s.ResourceGroup()].tags else map[]
  }

  /** The group's location: kept, or the configured one, or the management cluster's. */
  function GoalLocation(s: Scope, az0: Azure): string {
    var management := GroupId(s.subscription, if s.managementGroup.Some? then s.managementGroup.value else "");
    if s.ResourceGroup() in az0.groups then az0.groups[s.ResourceGroup()].location
    else if s.location != "" then s.location
    else if management in az0.groups then az0.groups[management].location
    else ""
  }

  predicate HasZone(s: Scope, az: Azure) { s.ClusterZone() in az.zones }

  function ZoneOf(s: Scope, az: Azure): Zone
    requires HasZone(s, az)
  {
    az.zones[s.ClusterZone()]
  }

  /** The record sets the cluster's zone starts from: those it had, or the apex of a new zone. */
  function StartRecords(s: Scope, az0: Azure, az: Azure): Records
    requires HasZone(s, az)
  {
    if HasZone(s, az0) then ZoneOf(s, az0).records else ApexRecords(ZoneOf(s, az).servers)
  }

  predicate NsRight(s: Scope, az: Azure) {
    && s.BaseZone() in az.zones && HasZone(s, az)
    && Holds(az.zones[s.BaseZone()].records, NsSet(s, ZoneOf(s, az).servers))
  }

  /** What holds of the state in the middle of any sequence of runs. */
  predicate OnTheWay(s: Scope, az0: Azure, az: Azure)
    requires Sane(s)
  {
    && az.groups - {s.ResourceGroup()} == az0.groups - {s.ResourceGroup()}
    && (s.ResourceGroup() in az0.groups ==> s.ResourceGroup() in az.groups)
    && (!s.kind.AzureCluster? && s.ResourceGroup() in az.groups ==>
          && az.groups[s.ResourceGroup()].location == GoalLocation(s, az0)
          && (TagsOf(s, az) == TagsOf(s, az0) || TagsOf(s, az) == TagsOf(s, az0) + s.tags))
    && (HasZone(s, az0) ==> HasZone(s, az) && ZoneOf(s, az).servers == ZoneOf(s, az0).servers)
    && (HasZone(s, az) ==>
          && WellTyped(ZoneOf(s, az).records)
          && Overlay(ZoneOf(s, az).records, Goals(s)) == Overlay(StartRecords(s, az0, az), Goals(s)))
  }

  predicate TagsDone(s: Scope, az0: Azure, az: Azure) {
    s.kind.AzureCluster? ||
    (s.ResourceGroup() in az.groups && az.groups[s.ResourceGroup()] == Group(GoalLocation(s, az0), TagsOf(s, az0) + s.tags))
  }

  /** What the listing does not schedule is there. */
  ghost predicate Snapshot(s: Scope, listing: seq<RecordSet>, az: Azure)
    requires Sane(s)
  {
    HasZone(s, az) && forall d | d in Goals(s) && !NeedsWrite(d, listing) :: Holds(ZoneOf(s, az).records, d)
  }

  ghost predicate Progress(s: Scope, az0: Azure, az: Azure, pc: Pc)
    requires Sane(s)
  {
    match pc
    case GetGroup => !s.kind.AzureCluster?
    case GetManagementGroup => !s.kind.AzureCluster? && s.location == "" && s.ResourceGroup() !in az.groups
    case WriteGroup(g) => !s.kind.AzureCluster? && g == Group(GoalLocation(s, az0), TagsOf(s, az0) + s.tags)
    case ListZone => TagsDone(s, az0, az)
    case CreateZone => TagsDone(s, az0, az)
    case GetZone(listing) => TagsDone(s, az0, az) && (listing == [] || Snapshot(s, listing, az))
    case ListBase(listing, servers) =>
      TagsDone(s, az0, az) && Snapshot(s, listing, az) && servers == ZoneOf(s, az).servers
    case WriteNs(listing, servers) =>
      TagsDone(s, az0, az) && Snapshot(s, listing, az) && servers == ZoneOf(s, az).servers
    case WriteSets(pending) =>
      && TagsDone(s, az0, az) && NsRight(s, az) && pending != []
      && (forall d | d in pending :: d in Goals(s))
      && (forall d | d in Goals(s) :: d in pending || Holds(ZoneOf(s, az).records, d))
    case Stopped(ok) => ok ==> TagsDone(s, az0, az) && NsRight(s, az) && AllHold(ZoneOf(s, az).records, Goals(s))
    case _ => false
  }

  lemma RecordWriteStaysOnTheWay(s: Scope, az0: Azure, az: Azure, d: RecordSet)
    requires Sane(s) && OnTheWay(s, az0, az) && d in Goals(s)
    ensures OnTheWay(s, az0, PutRecord(az, s.ClusterZone(), d))
  {
    GoalsAreDesirable(s);
    assert Desirable(d);
    if HasZone(s, az) { GoalWriteIsNeutral(ZoneOf(s, az).records, Goals(s), d); }
  }

  lemma NsWriteEffect(s: Scope, az: Azure, servers: seq<string>)
    ensures var after := PutRecord(az, s.BaseZone(), NsSet(s, servers));
            && after.groups == az.groups
            && (HasZone(s, after) <==> HasZone(s, az)) && (HasZone(s, az) ==> ZoneOf(s, after) == ZoneOf(s, az))
            && (s.BaseZone() in az.zones && HasZone(s, az) && servers == ZoneOf(s, az).servers ==> NsRight(s, after))
  {}

  lemma StateStaysOnTheWay(s: Scope, az0: Azure, az: Azure, pc: Pc, o: Outcome)
    requires Sane(s) && OnTheWay(s, az0, az) && Progress(s, az0, az, pc)
    ensures OnTheWay(s, az0, Effect(s, pc, az, o))
  {
    if pc.WriteSets? {
      RecordWriteStaysOnTheWay(s, az0, az, pc.pending[0]);
    } else if pc.WriteNs? {
      NsWriteEffect(s, az, pc.servers);
    }
  }

  lemma SnapshotOfListing(s: Scope, az: Azure, listing: seq<RecordSet>)
    requires Sane(s) && HasZone(s, az) && WellTyped(ZoneOf(s, az).records)
    requires IsListing(ZoneOf(s, az).records, listing)
    ensures Snapshot(s, listing, az)
  {
    GoalsAreDesirable(s);
    forall d | d in Goals(s) && !NeedsWrite(d, listing) ensures Holds(ZoneOf(s, az).records, d) {
      NameOnlyLookupIsSound(ZoneOf(s, az).records, listing, d);
    }
  }

  lemma DiffIsMissing(s: Scope, listing: seq<RecordSet>)
    requires Sane(s)
    ensures var pending := Missing(s.DesiredA().value, listing) + Missing(s.DesiredCname(), listing);
            && Diff(s, listing) == WriteRest(pending)
            && forall d :: d in pending <==> d in Goals(s) && NeedsWrite(d, listing)
  {
    MissingIsFilter(s.DesiredA().value, listing);
    MissingIsFilter(s.DesiredCname(), listing);
  }

  lemma GroupStepProgress(s: Scope, az0: Azure, az: Azure, pc: Pc, o: Outcome)
    requires Sane(s) && OnTheWay(s, az0, az) && Progress(s, az0, az, pc) && o.reply.Done?
    requires pc.GetGroup? || pc.GetManagementGroup? || pc.WriteGroup?
    ensures Progress(s, az0, Effect(s, pc, az, o), Next(s, pc, az, o))
  {
    assert map[] + s.tags == s.tags;
    assert s.tags + s.tags == s.tags;
    assert TagsOf(s, az0) + s.tags + s.tags == TagsOf(s, az0) + s.tags;
    if pc.GetManagementGroup? && s.managementGroup.Some? {
      var m := GroupId(s.subscription, s.managementGroup.value);
      assert m in az.groups ==> m in az.groups - {s.ResourceGroup()};
    }
  }

  lemma ZoneStepProgress(s: Scope, az0: Azure, az: Azure, pc: Pc, o: Outcome)
    requires Sane(s) && OnTheWay(s, az0, az) && Progress(s, az0, az, pc) && o.reply.Done?
    requires pc.ListZone? || pc.CreateZone? || pc.GetZone? || pc.ListBase?
    ensures Progress(s, az0, Effect(s, pc, az, o), Next(s, pc, az, o))
  {
    if pc.ListZone? && HasZone(s, az) && IsListing(ZoneOf(s, az).records, o.listing) {
      SnapshotOfListing(s, az, o.listing);
    }
  }

  lemma NsStepProgress(s: Scope, az0: Azure, az: Azure, pc: Pc, o: Outcome)
    requires Sane(s) && OnTheWay(s, az0, az) && Progress(s, az0, az, pc) && o.reply.Done? && pc.WriteNs?
    ensures Progress(s, az0, Effect(s, pc, az, o), Next(s, pc, az, o))
  {
    NsWriteEffect(s, az, pc.servers);
    DiffIsMissing(s, pc.listing);
  }

  lemma RunMakesProgress(s: Scope, az0: Azure, az: Azure, pc: Pc, o: Outcome)
    requires Sane(s) && OnTheWay(s, az0, az) && Progress(s, az0, az, pc)
    ensures Progress(s, az0, Effect(s, pc, az, o), Next(s, pc, az, o))
  {
    if o.reply.Done? {
      if pc.GetGroup? || pc.GetManagementGroup? || pc.WriteGroup? {
        GroupStepProgress(s, az0, az, pc, o);
      } else if pc.ListZone? || pc.CreateZone? || pc.GetZone? || pc.ListBase? {
        ZoneStepProgress(s, az0, az, pc, o);
      } else if pc.WriteNs? {
        NsStepProgress(s, az0, az, pc, o);
      } else if pc.WriteSets? {
        WriteMakesProgress(s, az, pc.pending, o);
      }
    } else if pc.Stopped? {
      assert Effect(s, pc, az, o) == az;
    }
  }

  lemma WriteMakesProgress(s: Scope, az: Azure, pending: seq<RecordSet>, o: Outcome)
    requires Sane(s) && HasZone(s, az) && NsRight(s, az) && pending != [] && o.reply.Done?
    requires forall d | d in pending :: d in Goals(s)
    requires forall d | d in Goals(s) :: d in pending || Holds(ZoneOf(s, az).records, d)
    ensures var after := Effect(s, WriteSets(pending), az, o);
            NsRight(s, after) && forall d | d in Goals(s) :: d in pending[1..] || Holds(ZoneOf(s, after).records, d)
  {
    assert |s.ClusterDomain()| > |s.baseDomain|;
    GoalsAreDesirable(s);
    assert pending[0] in pending;
    PendingShrinks(ZoneOf(s, az).records, Goals(s), pending);
  }

  // ----- histories -----

  /** Starts of reconcile runs with scope `s`, their calls and crashes. */
  predicate Repeats(s: Scope, actions: seq<Action>) {
    forall a | a in actions :: NameOf(a) == Some(s.name) && (a.Start? ==> a.scope == s && !a.delete)
  }

  ghost predicate Underway(s: Scope, az0: Azure, sys: System)
    requires Sane(s)
  {
    && OnTheWay(s, az0, sys.az)
    && (s.name in sys.runs ==> sys.runs[s.name].scope == s && Progress(s, az0, sys.az, sys.runs[s.name].pc))
  }

  lemma {:induction false} HistoryStaysUnderway(s: Scope, az0: Azure, sys: System, actions: seq<Action>)
    requires Sane(s) && Repeats(s, actions) && Underway(s, az0, sys)
    ensures Underway(s, az0, Exec(sys, actions))
    decreases actions
  {
    if actions != [] {
      var a := actions[0];
      if a.Call? && s.name in sys.runs {
        StateStaysOnTheWay(s, az0, sys.az, sys.runs[s.name].pc, a.outcome);
        RunMakesProgress(s, az0, sys.az, sys.runs[s.name].pc, a.outcome);
      }
      if a.Start? && s.kind.AzureCluster? { assert TagsDone(s, az0, sys.az); }
      HistoryStaysUnderway(s, az0, Do(sys, a), actions[1..]);
    }
  }

  /**
   The state a finished history must have reached: the group has its location, and as tags the
   right-biased union; the zone holds exactly its starting sets overlaid with the desired ones, the delegation is right.
   */
  predicate Converged(s: Scope, az0: Azure, az: Azure)
    requires Sane(s)
  {
    && TagsDone(s, az0, az) && NsRight(s, az)
    && (HasZone(s, az0) ==> ZoneOf(s, az).servers == ZoneOf(s, az0).servers)
    && ZoneOf(s, az).records == Overlay(StartRecords(s, az0, az), Goals(s))
    && AllHold(ZoneOf(s, az).records, Goals(s))
  }

  ghost predicate CleanStart(s: Scope, az0: Azure) {
    HasZone(s, az0) ==> WellTyped(ZoneOf(s, az0).records)
  }

  lemma AloneConverges(s: Scope, az0: Azure, actions: seq<Action>)
    requires Sane(s) && CleanStart(s, az0) && Repeats(s, actions)
    ensures var sys := Exec(System(az0, map[]), actions);
            && OnTheWay(s, az0, sys.az)
            && (s.name in sys.runs && sys.runs[s.name].pc == Stopped(true) ==> Converged(s, az0, sys.az))
  {
    var sys := Exec(System(az0, map[]), actions);
    HistoryStaysUnderway(s, az0, System(az0, map[]), actions);
    if s.name in sys.runs && sys.runs[s.name].pc == Stopped(true) {
      GoalsAreDesirable(s);
      OverlayPart(ZoneOf(s, sys.az).records, [], Goals(s));
    }
  }

  /**
   History independence, among any other clusters' runs: whatever interrupted runs of `s` came
   before, once a run of `s` has succeeded the cluster has converged.
   */
  lemma SuccessMeansConverged(w: World, s: Scope, az0: Azure, actions: seq<Action>)
    requires w.BaseApart() && Separate(w, s) && Sane(s) && CleanStart(s, az0)
    requires AllSeparate(w, actions) && Repeats(s, Own(actions, s.name))
    ensures var sys := Exec(System(az0, map[]), actions);
            s.name in sys.runs && sys.runs[s.name].pc == Stopped(true) ==> Converged(s, az0, sys.az)
  {
    var sys := Exec(System(az0, map[]), actions);
    var alone := Exec(System(az0, map[]), Own(actions, s.name));
    AsIfAlone(w, System(az0, map[]), actions, s.name);
    AloneConverges(s, az0, Own(actions, s.name));
    AgreeFacts(w, s.name, sys.az, alone.az);
    assert ViewOf(w, s.name, sys.az).ns == ViewOf(w, s.name, alone.az).ns;
    assert s.ResourceGroup() == w.GroupOf(s.name) && s.ClusterZone() == w.ZoneOf(s.name) && s.BaseZone() == w.BaseZone();
    if s.name in sys.runs && sys.runs[s.name].pc == Stopped(true) {
      assert NsOf(w, s.name, alone.az) == Some(NsSet(s, ZoneOf(s, alone.az).servers).props);
    }
  }

  /** Two converged states from the same start differ at most in the name servers Azure gave a new zone. */
  lemma ConvergedStatesAgree(s: Scope, az0: Azure, a: Azure, b: Azure)
    requires Sane(s) && Converged(s, az0, a) && Converged(s, az0, b)
    requires HasZone(s, az0) || ZoneOf(s, a).servers == ZoneOf(s, b).servers
    ensures ZoneOf(s, a) == ZoneOf(s, b)
    ensures At(a.zones[s.BaseZone()].records, s.NsKey()) == At(b.zones[s.BaseZone()].records, s.NsKey())
    ensures s.kind.AzureCluster? || a.groups[s.ResourceGroup()] == b.groups[s.ResourceGroup()]
  {}

  /** In every prefix, a record set that is not desired is as it was at the start. */
  lemma OthersRecordsUntouched(s: Scope, az0: Azure, actions: seq<Action>, k: RecordKey)
    requires Sane(s) && CleanStart(s, az0) && Repeats(s, actions) && HasZone(s, az0)
    requires forall d | d in Goals(s) :: d.key != k
    ensures var az := Exec(System(az0, map[]), actions).az;
            HasZone(s, az) && At(ZoneOf(s, az).records, k) == At(ZoneOf(s, az0).records, k)
  {
    AloneConverges(s, az0, actions);
    var az := Exec(System(az0, map[]), actions).az;
    LastIsMember(Goals(s), k);
    OverlayAt(ZoneOf(s, az).records, Goals(s), k);
    OverlayAt(ZoneOf(s, az0).records, Goals(s), k);
  }
}
