/**
 All clusters of the operator at once: every cluster has its object on the API server and its
 reconciliation under the finalizer protocol, and all share one Azure (main.go, controllers/cluster_controller.go).
 */
module Fleet {
  import opened AzureModel
  import opened DesiredRecords
  import opened PublicRun
  import opened RecordDiff
  import opened Clusters
  import opened Delegation
  import opened Finalizer

  datatype Member = Member(server: Server, stage: Stage)

  datatype Fleet = Fleet(az: Azure, members: map<string, Member>)

  /** A move in the protocol of one cluster, or a write to Azure by somebody else. */
  datatype Act = On(name: string, move: Move) | Elsewhere(az: Azure)

  function StateOf(f: Fleet, n: string): State
    requires n in f.members
  {
    State(f.members[n].server, f.az, f.members[n].stage)
  }

  function After(f: Fleet, a: Act): Fleet {
    match a
    case On(n, m) =>
      if n !in f.members then f
      else
        var st := Make(StateOf(f, n), m);
        Fleet(st.az, f.members[n := Member(st.server, st.stage)])
    case Elsewhere(az) => f.(az := az)
  }

  function Unfold(f: Fleet, acts: seq<Act>): Fleet
    decreases acts
  {
    if acts == [] then f else Unfold(After(f, acts[0]), acts[1..])
  }

  /** Runs are for clusters of the world; those of `managed` are of the kind AzureASOManagedCluster. */
  predicate Proper(w: World, managed: set<string>, a: Act) {
    a.On? ==>
      && !a.move.OtherAzure? && a.name in w.subscriptions
      && (a.move.Fetch? ==> Placed(w, a.move.scope) && a.move.scope.name == a.name)
      && (a.move.Fetch? && a.name in managed ==> a.move.scope.kind.AzureASOManagedCluster?)
  }

  /** Other writers are fair to every cluster of `managed`. */
  ghost predicate Fair(w: World, managed: set<string>, f: Fleet, a: Act) {
    && Proper(w, managed, a)
    && forall n | n in managed && n in f.members && n in w.subscriptions ::
         match a
         case On(m, move) => m == n ==> FairMove(w, n, StateOf(f, n), move)
         case Elsewhere(az) => FairMove(w, n, StateOf(f, n), OtherAzure(az))
  }

  ghost predicate AllFairActs(w: World, managed: set<string>, f: Fleet, acts: seq<Act>)
    decreases acts
  {
    acts != [] ==> Fair(w, managed, f, acts[0]) && AllFairActs(w, managed, After(f, acts[0]), acts[1..])
  }

  /** Reconciliations are for their own cluster. */
  ghost predicate Manned(w: World, f: Fleet) {
    forall n | n in f.members && !f.members[n].stage.Idle? ::
      Placed(w, f.members[n].stage.scope) && f.members[n].stage.scope.name == n
  }

  predicate MemberSafe(w: World, f: Fleet, n: string)
    requires n in f.members && n in w.subscriptions
  {
    NoOrphans(w, n, StateOf(f, n)) && StageOk(w, n, StateOf(f, n))
  }

  ghost predicate FleetSafe(w: World, managed: set<string>, f: Fleet) {
    Manned(w, f) && forall n | n in managed :: n in f.members && n in w.subscriptions && MemberSafe(w, f, n)
  }

  lemma MoveKeepsScope(st: State, m: Move)
    ensures var after := Make(st, m).stage;
            !after.Idle? ==> (if m.Fetch? && st.stage.Idle? then after.scope == m.scope else !st.stage.Idle? && after.scope == st.stage.scope)
  {}

  lemma ActKeepsManned(w: World, managed: set<string>, f: Fleet, a: Act)
    requires Manned(w, f) && Proper(w, managed, a)
    ensures Manned(w, After(f, a))
  {
    if a.On? && a.name in f.members { MoveKeepsScope(StateOf(f, a.name), a.move); }
  }

  /** What a move of cluster `m` does to Azure is a fair move in the protocol of `n`. */
  lemma OthersMoveFairly(w: World, managed: set<string>, f: Fleet, m: string, move: Move, n: string)
    requires Manned(w, f) && Proper(w, managed, On(m, move)) && m in f.members
    requires n in f.members && n in w.subscriptions && m != n
    ensures FairMove(w, n, StateOf(f, n), OtherAzure(After(f, On(m, move)).az))
  {
    var stage := f.members[m].stage;
    if move.Step? && stage.Public? {
      OtherClustersPlayFair(w, n, StateOf(f, n), stage.scope, stage.pc, move.outcome);
    } else {
      assert Make(StateOf(f, m), move).az == f.az;
    }
  }

  lemma ActKeepsMember(w: World, managed: set<string>, f: Fleet, a: Act, n: string)
    requires Manned(w, f) && Fair(w, managed, f, a) && n in managed
    requires n in f.members && n in w.subscriptions && MemberSafe(w, f, n)
    ensures n in After(f, a).members && MemberSafe(w, After(f, a), n)
  {
    var st, after := StateOf(f, n), After(f, a);
    match a
    case On(m, move) =>
      if m == n {
        MoveKeepsGuard(w, n, st, move);
        assert StateOf(after, n) == Make(st, move);
      } else if m in f.members {
        OthersMoveFairly(w, managed, f, m, move, n);
        MoveKeepsGuard(w, n, st, OtherAzure(after.az));
        assert StateOf(after, n) == Make(st, OtherAzure(after.az));
      }
    case Elsewhere(az) =>
      MoveKeepsGuard(w, n, st, OtherAzure(az));
      assert StateOf(after, n) == Make(st, OtherAzure(az));
  }

  lemma {:induction false} FleetStaysSafe(w: World, managed: set<string>, f: Fleet, acts: seq<Act>)
    requires FleetSafe(w, managed, f) && AllFairActs(w, managed, f, acts)
    ensures FleetSafe(w, managed, Unfold(f, acts))
    decreases acts
  {
    if acts != [] {
      ActKeepsManned(w, managed, f, acts[0]);
      forall n | n in managed ensures n in After(f, acts[0]).members && MemberSafe(w, After(f, acts[0]), n) {
        ActKeepsMember(w, managed, f, acts[0], n);
      }
      FleetStaysSafe(w, managed, After(f, acts[0]), acts[1..]);
    }
  }

  ghost predicate AllIdle(f: Fleet) {
    forall n | n in f.members :: f.members[n].stage.Idle?
  }

  /**
   No orphans anywhere: with clusters of every kind reconciled at the same time against one Azure,
   at every moment every AzureASOManagedCluster that has resources has its object with the finalizer.
   */
  lemma NothingIsEverOrphaned(w: World, managed: set<string>, f: Fleet, acts: seq<Act>)
    requires AllIdle(f) && forall n | n in managed :: n in f.members && n in w.subscriptions && NoOrphans(w, n, StateOf(f, n))
    requires AllFairActs(w, managed, f, acts)
    ensures var end := Unfold(f, acts); forall n | n in managed :: n in end.members && NoOrphans(w, n, StateOf(end, n))
  {
    FleetStaysSafe(w, managed, f, acts);
  }

  // ----- a fleet is a system of runs -----

  /** The runs of a fleet: the reconciliations that are at the public DNS service. */
  function Runs(f: Fleet): System {
    System(f.az, map n | n in f.members && f.members[n].stage.Public? :: Run(f.members[n].stage.scope, f.members[n].stage.pc))
  }

  /** What an act means for the runs. */
  function ActionsOf(f: Fleet, a: Act): seq<Action> {
    match a
    case Elsewhere(az) => [Foreign(az)]
    case On(n, m) =>
      if n !in f.members then []
      else
        var before, after := f.members[n].stage, Make(StateOf(f, n), m).stage;
        if after.Public? && !before.Public? then [Start(after.scope, after.delete)]
        else if before.Public? && !after.Public? then [Crash(n)]
        else if before.Public? && m.Step? then [Call(n, m.outcome)]
        else []
  }

  function History(f: Fleet, acts: seq<Act>): seq<Action>
    decreases acts
  {
    if acts == [] then [] else ActionsOf(f, acts[0]) + History(After(f, acts[0]), acts[1..])
  }

  lemma MoveOfStage(st: State, m: Move)
    requires !m.OtherAzure?
    ensures var after := Make(st, m);
            && (!st.stage.Public? && after.stage.Public? ==> after.stage.pc == Begin(after.stage.scope, after.stage.delete))
            && (st.stage.Public? && after.stage.Public? && !m.Step? ==> after.stage == st.stage)
            && (st.stage.Public? && m.Step? ==> after == StepStage(st, m.outcome))
            && (!(st.stage.Public? && m.Step?) ==> after.az == st.az)
  {}

  /** One cluster's stage decides about its run only. */
  lemma RunsAfter(f: Fleet, n: string, m: Move)
    requires n in f.members
    ensures var st := Make(StateOf(f, n), m);
            Runs(After(f, On(n, m))) ==
            System(st.az, if st.stage.Public? then Runs(f).runs[n := Run(st.stage.scope, st.stage.pc)] else Runs(f).runs - {n})
  {
    var after := After(f, On(n, m));
    assert forall k | k != n :: k in after.members <==> k in f.members;
    assert forall k | k != n && k in f.members :: after.members[k] == f.members[k];
  }

  lemma ExecOne(sys: System, a: Action)
    ensures Exec(sys, [a]) == Do(sys, a) && Exec(sys, []) == sys
  {
    assert [a][1..] == [];
  }

  lemma MoveIsHistory(f: Fleet, n: string, m: Move)
    requires n in f.members && !m.OtherAzure?
    requires var after := Make(StateOf(f, n), m).stage; !after.Idle? ==> after.scope.name == n
    ensures Exec(Runs(f), ActionsOf(f, On(n, m))) == Runs(After(f, On(n, m)))
  {
    var st := StateOf(f, n);
    var before, after := st.stage, Make(st, m).stage;
    MoveOfStage(st, m);
    RunsAfter(f, n, m);
    if after.Public? && !before.Public? {
      ExecOne(Runs(f), Start(after.scope, after.delete));
    } else if before.Public? && !after.Public? {
      ExecOne(Runs(f), Crash(n));
    } else if before.Public? && m.Step? {
      ExecOne(Runs(f), Call(n, m.outcome));
    } else {
      assert Runs(After(f, On(n, m))).runs == Runs(f).runs;
    }
  }

  lemma ActIsHistory(w: World, managed: set<string>, f: Fleet, a: Act)
    requires Manned(w, f) && Proper(w, managed, a)
    ensures Exec(Runs(f), ActionsOf(f, a)) == Runs(After(f, a)) && AllAdmissible(w, ActionsOf(f, a))
  {
    match a
    case Elsewhere(az) => ExecOne(Runs(f), Foreign(az));
    case On(n, m) =>
      if n in f.members {
        MoveKeepsScope(StateOf(f, n), m);
        MoveIsHistory(f, n, m);
      }
  }

  lemma {:induction false} ExecAppend(sys: System, p: seq<Action>, q: seq<Action>)
    ensures Exec(sys, p + q) == Exec(Exec(sys, p), q)
    decreases p
  {
    if p == [] {
      assert p + q == q;
    } else {
      ExecAppend(Do(sys, p[0]), p[1..], q);
      assert (p + q)[1..] == p[1..] + q;
    }
  }

  ghost predicate AllProper(w: World, managed: set<string>, acts: seq<Act>) {
    forall a | a in acts :: Proper(w, managed, a)
  }

  /** What holds of all histories of runs holds of a fleet: its acts are such a history. */
  lemma {:induction false} FleetIsHistory(w: World, managed: set<string>, f: Fleet, acts: seq<Act>)
    requires Manned(w, f) && AllProper(w, managed, acts)
    ensures Exec(Runs(f), History(f, acts)) == Runs(Unfold(f, acts)) && AllAdmissible(w, History(f, acts))
    decreases acts
  {
    if acts != [] {
      ActKeepsManned(w, managed, f, acts[0]);
      ActIsHistory(w, managed, f, acts[0]);
      FleetIsHistory(w, managed, After(f, acts[0]), acts[1..]);
      ExecAppend(Runs(f), ActionsOf(f, acts[0]), History(After(f, acts[0]), acts[1..]));
    }
  }

  /** Writes to Azure by others leave the clusters' zones and NS sets alone. */
  ghost predicate RespectfulActs(w: World, f: Fleet, acts: seq<Act>)
    decreases acts
  {
    acts != [] ==>
      && (acts[0].Elsewhere? ==> Respectful(w, f.az, acts[0].az))
      && RespectfulActs(w, After(f, acts[0]), acts[1..])
  }

  lemma {:induction false} HistoryIsRespectful(w: World, managed: set<string>, f: Fleet, acts: seq<Act>)
    requires Manned(w, f) && AllProper(w, managed, acts) && RespectfulActs(w, f, acts)
    ensures AllRespectful(w, Runs(f), History(f, acts))
    decreases acts
  {
    if acts != [] {
      ActKeepsManned(w, managed, f, acts[0]);
      ActIsHistory(w, managed, f, acts[0]);
      HistoryIsRespectful(w, managed, After(f, acts[0]), acts[1..]);
      var head, rest := ActionsOf(f, acts[0]), History(After(f, acts[0]), acts[1..]);
      if head == [] {
        assert head + rest == rest;
      } else {
        assert |head| == 1 && (head + rest)[0] == head[0] && (head + rest)[1..] == rest;
        assert Exec(Runs(f), head) == Exec(Do(Runs(f), head[0]), head[1..]);
        assert head[1..] == [];
      }
    }
  }

  /** The whole operator: no delegation ever dangles, for clusters of every kind under the whole protocol. */
  lemma FleetNeverDangles(w: World, managed: set<string>, f: Fleet, acts: seq<Act>)
    requires AllIdle(f) && AllDelegated(w, f.az) && AllProper(w, managed, acts) && RespectfulActs(w, f, acts)
    ensures AllDelegated(w, Unfold(f, acts).az)
  {
    FleetIsHistory(w, managed, f, acts);
    HistoryIsRespectful(w, managed, f, acts);
    assert Runs(f) == System(f.az, map[]);
    NoDanglingDelegation(w, f.az, History(f, acts));
  }
}
