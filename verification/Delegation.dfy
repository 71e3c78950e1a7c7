/** A delegation in the base zone never dangles (azure/services/dns/dns.go, nsrecords.go). */
module Delegation {
  import opened AzureModel
  import opened DesiredRecords
  import opened PublicRun
  import opened RecordDiff
  import opened Clusters

  /** The name servers of the cluster's zone, if it exists. */
  function Servers(w: World, n: string, az: Azure): Option<seq<string>>
    requires n in w.subscriptions
  {
    if w.ZoneOf(n) in az.zones then Some(az.zones[w.ZoneOf(n)].servers) else None
  }

  /** An NS set for the cluster lists exactly the name servers of its existing zone, with TTL 3600. */
  predicate Delegated(w: World, n: string, az: Azure)
    requires n in w.subscriptions
  {
    NsOf(w, n, az).Some? ==>
      Servers(w, n, az).Some? && NsOf(w, n, az).value == Payload(3600, [], None, Servers(w, n, az).value)
  }

  ghost predicate AllDelegated(w: World, az: Azure) {
    forall n | n in w.subscriptions :: Delegated(w, n, az)
  }

  /** What a run relies on between reading the zone and writing the NS set, and between the two deletions. */
  predicate RunOk(w: World, s: Scope, pc: Pc, az: Azure)
    requires Placed(w, s)
  {
    match pc
    case ListBase(_, servers) => Servers(w, s.name, az) == Some(servers)
    case WriteNs(_, servers) => Servers(w, s.name, az) == Some(servers)
    case DeleteGroup => NsOf(w, s.name, az).None?
    case _ => true
  }

  ghost predicate Safe(w: World, sys: System) {
    && RunsPlaced(w, sys)
    && AllDelegated(w, sys.az)
    && forall n | n in sys.runs :: RunOk(w, sys.runs[n].scope, sys.runs[n].pc, sys.az)
  }

  /**
   Other writers may do anything except delete or re-create a cluster's zone and touch its NS set;
   external-dns writing records into a cluster zone is allowed, for example.
   */
  ghost predicate Respectful(w: World, before: Azure, after: Azure) {
    forall n | n in w.subscriptions ::
      NsOf(w, n, after) == NsOf(w, n, before) && Servers(w, n, after) == Servers(w, n, before)
  }

  /**
   A call for `s` leaves the delegation of every other cluster alone, or, where a cluster is named
   like the base zone's own resource group, removes it with the base zone.
   */
  lemma OthersUntouched(w: World, s: Scope, pc: Pc, az: Azure, o: Outcome, n: string)
    requires Placed(w, s) && n in w.subscriptions && n != s.name
    ensures NsOf(w, n, Effect(s, pc, az, o)) in {NsOf(w, n, az), None}
    ensures Servers(w, n, Effect(s, pc, az, o)) == Servers(w, n, az)
  {}

  lemma StepKeepsDelegation(w: World, s: Scope, pc: Pc, az: Azure, o: Outcome)
    requires Placed(w, s) && Delegated(w, s.name, az) && RunOk(w, s, pc, az)
    ensures Delegated(w, s.name, Effect(s, pc, az, o))
    ensures RunOk(w, s, Next(s, pc, az, o), Effect(s, pc, az, o))
  {}

  lemma CallKeepsSafe(w: World, sys: System, n: string, o: Outcome)
    requires Safe(w, sys) && n in sys.runs
    ensures Safe(w, Do(sys, Call(n, o)))
  {
    var after := Do(sys, Call(n, o));
    var Run(s, pc) := sys.runs[n];
    StepKeepsDelegation(w, s, pc, sys.az, o);
    forall m | m in w.subscriptions && m != n
      ensures NsOf(w, m, after.az) in {NsOf(w, m, sys.az), None} && Servers(w, m, after.az) == Servers(w, m, sys.az)
    {
      OthersUntouched(w, s, pc, sys.az, o, m);
    }
  }

  lemma ActionKeepsSafe(w: World, sys: System, a: Action)
    requires Safe(w, sys) && Admissible(w, a)
    requires a.Foreign? ==> Respectful(w, sys.az, a.az)
    ensures Safe(w, Do(sys, a))
  {
    if a.Call? && a.name in sys.runs { CallKeepsSafe(w, sys, a.name, a.outcome); }
  }

  /** Every foreign write in the schedule is respectful of the state it meets. */
  ghost predicate AllRespectful(w: World, sys: System, actions: seq<Action>)
    decreases actions
  {
    actions != [] ==>
      && (actions[0].Foreign? ==> Respectful(w, sys.az, actions[0].az))
      && AllRespectful(w, Do(sys, actions[0]), actions[1..])
  }

  lemma {:induction false} ExecKeepsSafe(w: World, sys: System, actions: seq<Action>)
    requires Safe(w, sys) && AllAdmissible(w, actions) && AllRespectful(w, sys, actions)
    ensures Safe(w, Exec(sys, actions))
    decreases actions
  {
    if actions != [] {
      ActionKeepsSafe(w, sys, actions[0]);
      ExecKeepsSafe(w, Do(sys, actions[0]), actions[1..]);
    }
  }

  /**
   No dangling delegation: starting without runs from a state without dangling delegations, after
   any schedule of reconcile and delete runs of any clusters, cut anywhere, with calls that fail
   with or without effect, every NS set of a cluster names exactly its zone's name servers.
   */
  lemma NoDanglingDelegation(w: World, az: Azure, actions: seq<Action>)
    requires AllDelegated(w, az)
    requires AllAdmissible(w, actions) && AllRespectful(w, System(az, map[]), actions)
    ensures AllDelegated(w, Exec(System(az, map[]), actions).az)
  {
    ExecKeepsSafe(w, System(az, map[]), actions);
  }

  /**
   Why the order of the two deletions matters, and why the theorem does not cover clusters whose
   group is deleted by its provider: dropping the group is safe exactly while no NS set is there.
   */
  lemma GroupDeletionIsSafeIffNotDelegated(w: World, n: string, az: Azure)
    requires n in w.subscriptions && w.GroupOf(n) != w.baseGroup && Delegated(w, n, az)
    ensures Delegated(w, n, DropGroup(az, w.GroupOf(n))) <==> NsOf(w, n, az).None?
  {}

  // ----- delete runs -----

  /** What is gone at which point of a delete run. */
  predicate Deleting(w: World, s: Scope, pc: Pc, az: Azure)
    requires Placed(w, s)
  {
    match pc
    case DeleteNs => true
    case DeleteGroup => !s.kind.AzureCluster? && NsOf(w, s.name, az).None?
    case Stopped(ok) => ok ==> Deleted(w, s, az)
    case _ => false
  }

  /** The NS set is gone, and unless the group is provided, the group with all its zones. */
  predicate Deleted(w: World, s: Scope, az: Azure)
    requires Placed(w, s)
  {
    && NsOf(w, s.name, az).None?
    && (!s.kind.AzureCluster? ==> w.GroupOf(s.name) !in az.groups && forall z | z in az.zones :: z.group != w.GroupOf(s.name))
  }

  /** All that a delete run leaves alone: for an AzureCluster everything but its NS set. */
  ghost predicate Spared(w: World, s: Scope, before: Azure, after: Azure)
    requires Placed(w, s)
  {
    && (forall g | g in before.groups && (s.kind.AzureCluster? || g != w.GroupOf(s.name)) ::
          g in after.groups && after.groups[g] == before.groups[g])
    && (forall z | z in before.zones && (s.kind.AzureCluster? || z.group != w.GroupOf(s.name)) ::
          z in after.zones && after.zones[z].servers == before.zones[z].servers
          && forall k | z != w.BaseZone() || k != RecordKey(NS, s.name) :: At(after.zones[z].records, k) == At(before.zones[z].records, k))
  }

  lemma {:induction false} DeletionSteps(w: World, s: Scope, pc: Pc, az: Azure, outcomes: seq<Outcome>)
    requires Placed(w, s) && Deleting(w, s, pc, az)
    ensures var (pc', after) := Steps(s, pc, az, outcomes); Deleting(w, s, pc', after) && Spared(w, s, az, after)
    decreases outcomes
  {
    if outcomes != [] {
      var pc', az' := Next(s, pc, az, outcomes[0]), Effect(s, pc, az, outcomes[0]);
      assert Deleting(w, s, pc', az') && Spared(w, s, az, az');
      DeletionSteps(w, s, pc', az', outcomes[1..]);
    }
  }

  /**
   A delete run of any kind of cluster, wherever it stops, touches nothing but the cluster's own NS
   set and group, of an AzureCluster the NS set alone; if it succeeds, they are gone.
   */
  lemma DeletionIsComplete(w: World, s: Scope, az: Azure, outcomes: seq<Outcome>)
    requires Placed(w, s)
    ensures var (pc, after) := Steps(s, Begin(s, true), az, outcomes);
            Spared(w, s, az, after) && (pc == Stopped(true) ==> Deleted(w, s, after))
  {
    DeletionSteps(w, s, Begin(s, true), az, outcomes);
  }

  /** A delete run succeeds exactly if the base zone exists and its calls, one for an AzureCluster, are answered. */
  lemma DeletionSucceedsIff(s: Scope, az: Azure, outcomes: seq<Outcome>)
    ensures Steps(s, Begin(s, true), az, outcomes).0 == Stopped(true) <==>
              && ZoneId(s.baseGroup, s.baseDomain) in az.zones
              && |outcomes| >= 1 && outcomes[0].reply.Done?
              && (s.kind.AzureCluster? || (|outcomes| >= 2 && outcomes[1].reply.Done?))
  {
    if |outcomes| > 0 {
      var pc, az1 := Next(s, DeleteNs, az, outcomes[0]), Effect(s, DeleteNs, az, outcomes[0]);
      assert Steps(s, Begin(s, true), az, outcomes) == Steps(s, pc, az1, outcomes[1..]);
      StoppedStays(s, pc, az1, outcomes[1..]);
      if |outcomes| > 1 {
        var pc', az2 := Next(s, pc, az1, outcomes[1]), Effect(s, pc, az1, outcomes[1]);
        assert Steps(s, pc, az1, outcomes[1..]) == Steps(s, pc', az2, outcomes[1..][1..]);
        StoppedStays(s, pc', az2, outcomes[1..][1..]);
      } else {
        assert outcomes[1..] == [];
      }
    }
  }

  /** The same of a delete run fed by an oracle. */
  lemma ReachedDeletion(w: World, s: Scope, oracle: nat -> Outcome, az: Azure, t: nat, ok: bool, az': Azure, t': nat)
    requires Placed(w, s) && Reaches(s, oracle, Begin(s, true), az, t, Stopped(ok), az', t')
    ensures Spared(w, s, az, az') && (ok ==> Deleted(w, s, az'))
    ensures ok <==>
              && ZoneId(s.baseGroup, s.baseDomain) in az.zones
              && oracle(t).reply.Done? && (s.kind.AzureCluster? || oracle(t + 1).reply.Done?)
  {
    var outcomes := Feed(oracle, t, t');
    DeletionIsComplete(w, s, az, outcomes);
    DeletionSucceedsIff(s, az, outcomes);
    if |outcomes| == 1 { assert Steps(s, Next(s, DeleteNs, az, outcomes[0]), Effect(s, DeleteNs, az, outcomes[0]), outcomes[1..]).0 == Stopped(ok); }
  }
}
