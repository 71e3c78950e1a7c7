/**
 Many clusters reconciled at the same time against one Azure (main.go runs several workers), one
 run per cluster at a time.  An action is the start of a run, one client call, a crash, or a write
 by somebody else.
 */
module Clusters {
  import opened AzureModel
  import opened DesiredRecords
  import opened PublicRun
  import opened RecordDiff

  /**
   The base zone, the subscription of each cluster by name, and the names of the clusters whose
   group is provided by somebody else (AzureCluster); the operator never writes those groups.
   */
  datatype World = World(baseDomain: string, baseGroup: GroupId, subscriptions: map<string, string>, provided: set<string>)
  {
    predicate Owned(g: GroupId) { g.name in subscriptions && subscriptions[g.name] == g.subscription }
    /** A group that runs of some cluster create, tag and delete. */
    predicate Managed(g: GroupId) { Owned(g) && g.name !in provided }
    function BaseZone(): ZoneId { ZoneId(baseGroup, baseDomain) }
    function GroupOf(n: string): GroupId requires n in subscriptions { GroupId(subscriptions[n], n) }
    function ZoneOf(n: string): ZoneId requires n in subscriptions { ZoneId(GroupOf(n), n + "." + baseDomain) }
    /** The base zone is not in a group that runs of a cluster create and delete. */
    predicate BaseApart() { !Managed(baseGroup) }
  }

  /** A run's scope belongs to this world. */
  predicate Placed(w: World, s: Scope) {
    && s.name in w.subscriptions && s.subscription == w.subscriptions[s.name]
    && s.baseDomain == w.baseDomain && s.baseGroup == w.baseGroup
  }

  datatype System = System(az: Azure, runs: map<string, Run>)

  datatype Action =
    | Start(scope: Scope, delete: bool)
    | Call(name: string, outcome: Outcome)
    | Crash(name: string)
    | Foreign(az: Azure)

  function NameOf(a: Action): Option<string> {
    match a
    case Start(s, _) => Some(s.name)
    case Call(n, _) => Some(n)
    case Crash(n) => Some(n)
    case Foreign(_) => None
  }

  function Do(sys: System, a: Action): System {
    match a
    case Start(s, delete) =>
      if s.name in sys.runs && !sys.runs[s.name].pc.Stopped? then sys
      else sys.(runs := sys.runs[s.name := Run(s, Begin(s, delete))])
    case Call(n, o) =>
      if n !in sys.runs then sys
      else
        var Run(s, pc) := sys.runs[n];
        System(Effect(s, pc, sys.az, o), sys.runs[n := Run(s, Next(s, pc, sys.az, o))])
    case Crash(n) => sys.(runs := sys.runs - {n})
    case Foreign(az) => sys.(az := az)
  }

  function Exec(sys: System, actions: seq<Action>): System
    decreases actions
  {
    if actions == [] then sys else Exec(Do(sys, actions[0]), actions[1..])
  }

  ghost predicate RunsPlaced(w: World, sys: System) {
    forall n | n in sys.runs :: n == sys.runs[n].scope.name && Placed(w, sys.runs[n].scope)
  }

  /** Runs are started for clusters of the world only. */
  predicate Admissible(w: World, a: Action) {
    && (a.Start? ==> Placed(w, a.scope))
    && (NameOf(a).Some? ==> NameOf(a).value in w.subscriptions)
  }

  predicate AllAdmissible(w: World, actions: seq<Action>) {
    forall a | a in actions :: Admissible(w, a)
  }

  function BaseRecords(w: World, az: Azure): Records {
    if w.BaseZone() in az.zones then az.zones[w.BaseZone()].records else map[]
  }

  function NsOf(w: World, n: string, az: Azure): Option<Payload> {
    At(BaseRecords(w, az), RecordKey(NS, n))
  }

  lemma BaseZoneIsNoClusterZone(w: World, s: Scope)
    requires Placed(w, s)
    ensures s.BaseZone() == w.BaseZone() && s.ClusterZone() == w.ZoneOf(s.name) && s.ClusterZone() != w.BaseZone()
  {}

  function Calls(n: string, outcomes: seq<Outcome>): seq<Action> {
    seq(|outcomes|, i requires 0 <= i < |outcomes| => Call(n, outcomes[i]))
  }

  /** The steps of a single run are a history of this system: what holds of histories holds of runs. */
  lemma {:induction false} RunIsHistory(sys: System, n: string, outcomes: seq<Outcome>)
    requires n in sys.runs
    ensures var Run(s, pc) := sys.runs[n];
            var (pc', az') := Steps(s, pc, sys.az, outcomes);
            Exec(sys, Calls(n, outcomes)) == System(az', sys.runs[n := Run(s, pc')])
    decreases outcomes
  {
    if outcomes == [] {
      var Run(s, pc) := sys.runs[n];
      assert sys.runs[n := Run(s, pc)] == sys.runs;
      assert Calls(n, outcomes) == [] && Exec(sys, []) == sys;
    } else {
      var Run(s, pc) := sys.runs[n];
      var o := outcomes[0];
      var after := Do(sys, Call(n, o));
      RunIsHistory(after, n, outcomes[1..]);
      var end := Steps(s, pc, sys.az, outcomes);
      assert end == Steps(s, Next(s, pc, sys.az, o), after.az, outcomes[1..]);
      assert after.runs[n := Run(s, end.0)] == sys.runs[n := Run(s, end.0)];
      var calls := Calls(n, outcomes);
      assert calls[0] == Call(n, o) && calls[1..] == Calls(n, outcomes[1..]);
      assert Exec(sys, calls) == Exec(after, calls[1..]);
    }
  }
}
