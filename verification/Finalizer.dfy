/**
 The finalizer protocol: one controller, one infrastructure object on the API server, other writers
 and deletion requests (controllers/cluster_controller.go, pkg/infracluster/common_patcher.go).
 */
module Finalizer {
  import opened AzureModel
  import opened DesiredRecords
  import opened PublicRun
  import opened RecordDiff
  import opened Clusters
  import opened Conditions
  import Delegation

  const FINALIZER := "dns-operator-azure.giantswarm.io/azurecluster"

  const READY := Condition("GSDNSZoneReady", "True", "GSDNSZonesCreated", "GiantSwarm DNS Zones have been created", 0)

  /** The infrastructure object: as the server has it, or a local copy. */
  datatype Infra = Infra(version: nat, deleting: bool, finalizers: set<string>, conditions: seq<Condition>)

  /** The server's object, and the next resource version it will hand out. */
  datatype Server = Server(stored: Option<Infra>, next: nat)

  /** A deleted object without finalizers is gone, so the server never shows one. */
  predicate Collected(server: Server) {
    server.stored.Some? ==> !(server.stored.value.deleting && server.stored.value.finalizers == {})
  }

  /** The states a server can be in. */
  type LiveServer = s: Server | Collected(s) witness Server(None, 0)

  /** A call on the API server either is rejected, or leaves a new state and answers the new object. */
  datatype ApiResult = Rejected | Accepted(server: Server, answer: Infra)

  function Store(server: Server, changed: Infra): Server {
    Server(if changed.deleting && changed.finalizers == {} then None else Some(changed), server.next + 1)
  }

  /** Update: persists metadata; rejects stale versions, and new finalizers on a deleted object. */
  function Update(server: Server, local: Infra): ApiResult {
    if server.stored.None? || server.stored.value.version != local.version then Rejected
    else
      var current := server.stored.value;
      if current.deleting && !(local.finalizers <= current.finalizers) then Rejected
      else if current.finalizers == local.finalizers then Accepted(server, current)
      else
        var changed := current.(finalizers := local.finalizers, version := server.next);
        Accepted(Store(server, changed), changed)
  }

  /** Status().Update: persists status only. */
  function StatusUpdate(server: Server, local: Infra): ApiResult {
    if server.stored.None? || server.stored.value.version != local.version then Rejected
    else
      var current := server.stored.value;
      if current.conditions == local.conditions then Accepted(server, current)
      else
        var changed := current.(conditions := local.conditions, version := server.next);
        Accepted(Store(server, changed), changed)
  }

  /** An update persists the finalizers and nothing else, unless the copy is stale or adds finalizers to a deleted object. */
  lemma UpdateMeaning(server: Server, local: Infra)
    ensures var r := Update(server, local);
            && (r.Accepted? <==>
                  && server.stored.Some? && server.stored.value.version == local.version
                  && (server.stored.value.deleting ==> local.finalizers <= server.stored.value.finalizers))
            && (r.Accepted? ==>
                  && r.answer == server.stored.value.(finalizers := local.finalizers, version := r.answer.version)
                  && (r.answer.version == local.version || r.answer.version == server.next < r.server.next)
                  && (Collected(server) ==>
                        r.server.stored == if r.answer.deleting && r.answer.finalizers == {} then None else Some(r.answer)))
  {}

  /** A status update persists the conditions and nothing else, unless the copy is stale. */
  lemma StatusUpdateMeaning(server: Server, local: Infra)
    ensures var r := StatusUpdate(server, local);
            && (r.Accepted? <==> server.stored.Some? && server.stored.value.version == local.version)
            && (r.Accepted? ==>
                  && r.answer == server.stored.value.(conditions := local.conditions, version := r.answer.version)
                  && (r.answer.version == local.version || r.answer.version == server.next < r.server.next)
                  && (Collected(server) ==> r.server.stored == Some(r.answer)))
  {}

  /** What follows a PatchObject. */
  datatype Then = Registered | Finished | Closed

  datatype Stage =
    | Idle
    | Patch(scope: Scope, local: Infra, metadata: bool, after: Then)
    | Public(scope: Scope, local: Infra, delete: bool, pc: Pc)
    | Publish(scope: Scope, local: Infra)

  datatype State = State(server: Server, az: Azure, stage: Stage)

  datatype Move =
    | Fetch(scope: Scope, delete: bool)
    | Step(outcome: Outcome)
    | Proceed(now: nat)
    | Leave
    | Die
    | OtherWrite(finalizers: set<string>, conditions: seq<Condition>)
    | DeletionRequest
    | Creation(finalizers: set<string>)
    | OtherAzure(az: Azure)

  /** PatchObject skips the status for AzureASOManagedCluster. */
  function PatchObject(s: Scope, local: Infra, after: Then): Stage {
    Patch(s, local, s.kind.AzureASOManagedCluster?, after)
  }

  function AfterPatch(s: Scope, local: Infra, after: Then): Stage {
    match after
    case Registered => Public(s, local, false, Begin(s, false))
    case Finished => PatchObject(s, local, Closed)
    case Closed => Idle
  }

  /** An error return; the deferred Close patches once more. */
  function Close(s: Scope, local: Infra, after: Then): Stage {
    if after.Closed? then Idle else PatchObject(s, local, Closed)
  }

  function Fetched(s: Scope, local: Infra, delete: bool): Stage {
    if delete || local.deleting then Public(s, local, true, Begin(s, true))
    else if FINALIZER in local.finalizers then Public(s, local, false, Begin(s, false))
    else PatchObject(s, local.(finalizers := local.finalizers + {FINALIZER}), Registered)
  }

  function AfterPublic(s: Scope, local: Infra, delete: bool, ok: bool, now: nat): Stage {
    if !ok then PatchObject(s, local, Closed)
    else if delete then PatchObject(s, local.(finalizers := local.finalizers - {FINALIZER}), Closed)
    else if s.kind.AzureASOManagedCluster? then PatchObject(s, local, Finished)
    else Publish(s, local.(conditions := Upsert(local.conditions, READY, now)))
  }

  function AfterApi(st: State, result: ApiResult, reply: Reply, good: Infra -> Stage, bad: Stage): State {
    match result
    case Rejected => st.(stage := bad)
    case Accepted(server, answer) =>
      State(if reply.Failed? then st.server else server, st.az, if reply.Done? then good(answer) else bad)
  }

  function StepStage(st: State, o: Outcome): State {
    match st.stage
    case Idle => st
    case Patch(s, local, false, after) =>
      AfterApi(st, StatusUpdate(st.server, local), o.reply, answer => Patch(s, answer, true, after), Close(s, local, after))
    case Patch(s, local, true, after) =>
      AfterApi(st, Update(st.server, local), o.reply, answer => AfterPatch(s, answer, after), Close(s, local, after))
    case Publish(s, local) =>
      AfterApi(st, StatusUpdate(st.server, local), o.reply, answer => PatchObject(s, answer, Finished), PatchObject(s, local, Closed))
    case Public(s, local, delete, pc) =>
      State(st.server, Effect(s, pc, st.az, o), Public(s, local, delete, Next(s, pc, st.az, o)))
  }

  function Make(st: State, m: Move): State {
    match m
    case Fetch(s, delete) =>
      if st.stage.Idle? && st.server.stored.Some? then st.(stage := Fetched(s, st.server.stored.value, delete)) else st
    case Step(o) => StepStage(st, o)
    case Proceed(now) =>
      if st.stage.Public? && st.stage.pc.Stopped?
      then st.(stage := AfterPublic(st.stage.scope, st.stage.local, st.stage.delete, st.stage.pc.ok, now)) else st
    // not ready, an error before the next call, or a panic: the deferred Close still runs
    case Leave =>
      if st.stage.Idle? || (st.stage.Patch? && st.stage.after.Closed?) then st
      else st.(stage := PatchObject(st.stage.scope, st.stage.local, Closed))
    case Die => st.(stage := Idle)
    case OtherWrite(finalizers, conditions) =>
      if st.server.stored.None? then st
      else st.(server := Store(st.server,
        st.server.stored.value.(finalizers := finalizers, conditions := conditions, version := st.server.next)))
    case DeletionRequest =>
      if st.server.stored.None? then st
      else st.(server := Store(st.server, st.server.stored.value.(deleting := true, version := st.server.next)))
    case Creation(finalizers) =>
      if st.server.stored.Some? then st
      else st.(server := Store(st.server, Infra(st.server.next, false, finalizers, [])))
    case OtherAzure(az) => st.(az := az)
  }

  function Play(st: State, moves: seq<Move>): State
    decreases moves
  {
    if moves == [] then st else Play(Make(st, moves[0]), moves[1..])
  }

  lemma {:induction false} PlayAppend(st: State, p: seq<Move>, q: seq<Move>)
    ensures Play(st, p + q) == Play(Play(st, p), q)
    decreases p
  {
    if p == [] {
      assert p + q == q;
    } else {
      PlayAppend(Make(st, p[0]), p[1..], q);
      assert (p + q)[1..] == p[1..] + q;
    }
  }

  lemma PlayOne(st: State, m: Move)
    ensures Play(st, [m]) == Make(st, m)
  {}

  // ----- AzureASOManagedCluster: no orphans -----

  predicate Guarded(server: Server) {
    server.stored.Some? && FINALIZER in server.stored.value.finalizers
  }

  /** The cluster has its delegation or its resource group. */
  predicate HasResources(w: World, n: string, az: Azure)
    requires n in w.subscriptions
  {
    NsOf(w, n, az).Some? || w.GroupOf(n) in az.groups
  }

  /** Other writers do not take our finalizer away and do not create this cluster's resources. */
  predicate FairMove(w: World, n: string, st: State, m: Move)
    requires n in w.subscriptions
  {
    match m
    case Fetch(s, _) => Placed(w, s) && s.name == n
    case OtherWrite(finalizers, _) => Guarded(st.server) ==> FINALIZER in finalizers
    case OtherAzure(az) =>
      && (NsOf(w, n, az).Some? ==> NsOf(w, n, st.az).Some?)
      && (w.GroupOf(n) in az.groups ==> w.GroupOf(n) in st.az.groups)
    case _ => true
  }

  ghost predicate AllFair(w: World, n: string, st: State, moves: seq<Move>)
    requires n in w.subscriptions
    decreases moves
  {
    moves != [] ==> FairMove(w, n, st, moves[0]) && AllFair(w, n, Make(st, moves[0]), moves[1..])
  }

  /** All runs of the play are for clusters of this kind. */
  predicate OfKind(kind: Kind, moves: seq<Move>) {
    forall m | m in moves && m.Fetch? :: m.scope.kind == kind
  }

  /** What a stage relies on: the finalizer is only missing locally while there is nothing to guard. */
  predicate StageOk(w: World, n: string, st: State)
    requires n in w.subscriptions
  {
    !st.stage.Idle? ==>
      && Placed(w, st.stage.scope) && st.stage.scope.name == n && st.stage.scope.kind.AzureASOManagedCluster?
      && (FINALIZER !in st.stage.local.finalizers ==> !HasResources(w, n, st.az))
      && (st.stage.Public? && !st.stage.delete ==> Guarded(st.server) && FINALIZER in st.stage.local.finalizers)
      && (st.stage.Public? && st.stage.delete ==> DeletePc(w, n, st.az, st.stage.pc))
      && (st.stage.Patch? ==> st.stage.metadata)
      && (st.stage.Patch? && st.stage.after.Registered? ==> FINALIZER in st.stage.local.finalizers)
      && !st.stage.Publish?
  }

  predicate DeletePc(w: World, n: string, az: Azure, pc: Pc)
    requires n in w.subscriptions
  {
    match pc
    case DeleteNs => true
    case DeleteGroup => NsOf(w, n, az).None?
    case Stopped(ok) => ok ==> !HasResources(w, n, az)
    case _ => false
  }

  predicate NoOrphans(w: World, n: string, st: State)
    requires n in w.subscriptions
  {
    HasResources(w, n, st.az) ==> Guarded(st.server)
  }

  lemma DeleteStep(w: World, n: string, s: Scope, pc: Pc, az: Azure, o: Outcome)
    requires n in w.subscriptions && Placed(w, s) && s.name == n && !s.kind.AzureCluster? && DeletePc(w, n, az, pc)
    ensures DeletePc(w, n, Effect(s, pc, az, o), Next(s, pc, az, o))
    ensures HasResources(w, n, Effect(s, pc, az, o)) ==> HasResources(w, n, az)
  {}

  lemma PublicStepKeepsGuard(w: World, n: string, st: State, o: Outcome)
    requires n in w.subscriptions && NoOrphans(w, n, st) && StageOk(w, n, st) && st.stage.Public?
    ensures NoOrphans(w, n, StepStage(st, o)) && StageOk(w, n, StepStage(st, o))
  {
    if st.stage.delete { DeleteStep(w, n, st.stage.scope, st.stage.pc, st.az, o); }
  }

  lemma PatchStepKeepsGuard(w: World, n: string, st: State, o: Outcome)
    requires n in w.subscriptions && NoOrphans(w, n, st) && StageOk(w, n, st) && st.stage.Patch?
    ensures NoOrphans(w, n, StepStage(st, o)) && StageOk(w, n, StepStage(st, o))
  {}

  /** Each move keeps the guard, and what the stage relies on. */
  lemma MoveKeepsGuard(w: World, n: string, st: State, m: Move)
    requires n in w.subscriptions && NoOrphans(w, n, st) && StageOk(w, n, st) && FairMove(w, n, st, m)
    requires m.Fetch? ==> m.scope.kind.AzureASOManagedCluster?
    ensures NoOrphans(w, n, Make(st, m)) && StageOk(w, n, Make(st, m))
  {
    if m.Step? {
      if st.stage.Public? {
        PublicStepKeepsGuard(w, n, st, m.outcome);
      } else if st.stage.Patch? {
        PatchStepKeepsGuard(w, n, st, m.outcome);
      }
    }
  }

  lemma {:induction false} GuardForEver(w: World, n: string, st: State, moves: seq<Move>)
    requires n in w.subscriptions && NoOrphans(w, n, st) && StageOk(w, n, st) && AllFair(w, n, st, moves)
    requires OfKind(AzureASOManagedCluster, moves)
    ensures NoOrphans(w, n, Play(st, moves)) && StageOk(w, n, Play(st, moves))
    decreases moves
  {
    if moves != [] {
      MoveKeepsGuard(w, n, st, moves[0]);
      GuardForEver(w, n, Make(st, moves[0]), moves[1..]);
    }
  }

  /**
   No orphans: for an AzureASOManagedCluster, in every state of every interleaving of runs, failed
   and ambiguous calls, crashes, other writers and deletion requests, resources imply the
   persisted object with the operator's finalizer.
   */
  lemma ResourcesAreAlwaysGuarded(w: World, n: string, server: Server, az: Azure, moves: seq<Move>)
    requires n in w.subscriptions && NoOrphans(w, n, State(server, az, Idle))
    requires AllFair(w, n, State(server, az, Idle), moves) && OfKind(AzureASOManagedCluster, moves)
    ensures NoOrphans(w, n, Play(State(server, az, Idle), moves))
  {
    GuardForEver(w, n, State(server, az, Idle), moves);
  }

  /** Calls made for other clusters at the same time are fair moves. */
  lemma OtherClustersPlayFair(w: World, n: string, st: State, s: Scope, pc: Pc, o: Outcome)
    requires n in w.subscriptions && Placed(w, s) && s.name != n
    ensures FairMove(w, n, st, OtherAzure(Effect(s, pc, st.az, o)))
  {
    Delegation.OthersUntouched(w, s, pc, st.az, o, n);
  }

  // ----- deletion completes -----

  /** The calls of an answered delete run: both deletions, and the patch without the finalizer. */
  function DeletionRun(s: Scope, delete: bool, o: seq<Outcome>, now: nat): seq<Move>
    requires |o| == 3
  {
    [Die, Fetch(s, delete), Step(o[0]), Step(o[1]), Proceed(now), Step(o[2])]
  }

  lemma PlayTwo(st: State, m: seq<Move>)
    requires |m| >= 2
    ensures Play(st, m) == Play(Make(Make(st, m[0]), m[1]), m[2..])
  {
    assert Play(st, m) == Play(Make(st, m[0]), m[1..]);
    assert m[1..][1..] == m[2..];
  }

  /** Both deletions succeed exactly if the base zone exists, and then nothing is left. */
  lemma DeletionCalls(w: World, s: Scope, st: State, local: Infra, o: Outcome, p: Outcome)
    requires Placed(w, s) && !s.kind.AzureCluster? && o.reply.Done? && p.reply.Done?
    requires st.stage == Public(s, local, true, DeleteNs)
    ensures var after := StepStage(StepStage(st, o), p);
            && after.server == st.server
            && after.stage == Public(s, local, true, Stopped(s.BaseZone() in st.az.zones))
            && (s.BaseZone() in st.az.zones ==> !HasResources(w, s.name, after.az))
  {
    var mid := StepStage(st, o);
    DeleteStep(w, s.name, s, DeleteNs, st.az, o);
    DeleteStep(w, s.name, s, mid.stage.pc, mid.az, p);
  }

  /** The patch after a delete run takes the finalizer away exactly if the run succeeded. */
  lemma DeletionPatch(st: State, s: Scope, local: Infra, ok: bool, now: nat, o: Outcome)
    requires s.kind.AzureASOManagedCluster? && o.reply.Done? && Guarded(st.server)
    requires st.server.stored == Some(local) && local.deleting && st.stage == Public(s, local, true, Stopped(ok))
    ensures var end := Make(Make(st, Proceed(now)), Step(o));
            && end.stage == Idle && end.az == st.az
            && (!ok ==> end.server == st.server)
            && (ok ==> FinalizersOf(end.server) ==
                       if local.finalizers == {FINALIZER} then None else Some(local.finalizers - {FINALIZER}))
  {
    if ok { assert local.finalizers - {FINALIZER} == {} <==> local.finalizers == {FINALIZER}; }
  }

  /**
   Whatever state a crash left behind, if the object is being deleted and holds the operator's
   finalizer, one answered run takes the finalizer away exactly if the base zone exists; then all
   resources are gone, and the object is gone unless others hold it.
   */
  lemma DeletionCompletesIff(w: World, s: Scope, st: State, delete: bool, o: seq<Outcome>, now: nat)
    requires Placed(w, s) && s.kind.AzureASOManagedCluster? && |o| == 3 && forall i | 0 <= i < 3 :: o[i].reply.Done?
    requires Guarded(st.server) && st.server.stored.value.deleting
    ensures var end, finalizers := Play(st, DeletionRun(s, delete, o, now)), st.server.stored.value.finalizers;
            && end.stage == Idle
            && (!Guarded(end.server) <==> s.BaseZone() in st.az.zones)
            && (!Guarded(end.server) ==>
                  && !HasResources(w, s.name, end.az)
                  && FinalizersOf(end.server) == if finalizers == {FINALIZER} then None else Some(finalizers - {FINALIZER}))
  {
    var local, moves := st.server.stored.value, DeletionRun(s, delete, o, now);
    var begun := State(st.server, st.az, Public(s, local, true, DeleteNs));
    var called := StepStage(StepStage(begun, o[0]), o[1]);
    var ok := s.BaseZone() in st.az.zones;
    PlayTwo(st, moves);
    PlayTwo(begun, moves[2..]);
    PlayTwo(called, moves[4..]);
    DeletionCalls(w, s, begun, local, o[0], o[1]);
    DeletionPatch(called, s, local, ok, now, o[2]);
    assert moves[2..][2..] == moves[4..] && moves[4..][2..] == [];
  }

  // ----- the other kinds served by the common patcher -----

  /** A version names one content: the local copy before a metadata update is the server's, or stale. */
  predicate Faithful(st: State) {
    && (st.server.stored.Some? ==> st.server.stored.value.version < st.server.next)
    && (!st.stage.Idle? ==> st.stage.local.version < st.server.next && !st.stage.scope.kind.AzureASOManagedCluster?)
    && (st.stage.Patch? && st.stage.metadata && st.server.stored.Some? &&
          st.server.stored.value.version == st.stage.local.version ==>
          st.server.stored.value.finalizers == st.stage.local.finalizers)
  }

  predicate OperatorMove(m: Move) {
    m.Fetch? || m.Step? || m.Proceed? || m.Leave? || m.Die?
  }

  function FinalizersOf(server: Server): Option<set<string>> {
    if server.stored.None? then None else Some(server.stored.value.finalizers)
  }

  lemma OtherKindsStep(st: State, o: Outcome)
    requires Faithful(st) && Collected(st.server)
    ensures var after := StepStage(st, o);
            Faithful(after) && Collected(after.server) && FinalizersOf(after.server) == FinalizersOf(st.server)
  {}

  /** For other kinds no step of the operator changes the finalizers on the server. */
  lemma OtherKindsKeepFinalizers(st: State, m: Move)
    requires Faithful(st) && Collected(st.server)
    requires m.Fetch? ==> !m.scope.kind.AzureASOManagedCluster?
    ensures Faithful(Make(st, m)) && Collected(Make(st, m).server)
    ensures OperatorMove(m) ==> FinalizersOf(Make(st, m).server) == FinalizersOf(st.server)
  {
    if m.Step? { OtherKindsStep(st, m.outcome); }
  }

  /** Runs of the operator alone, of any length, whatever the calls answer. */
  lemma {:induction false} OtherKindsNeverRegister(st: State, moves: seq<Move>)
    requires Faithful(st) && Collected(st.server)
    requires forall m | m in moves :: OperatorMove(m) && (m.Fetch? ==> !m.scope.kind.AzureASOManagedCluster?)
    ensures FinalizersOf(Play(st, moves).server) == FinalizersOf(st.server)
    decreases moves
  {
    if moves != [] {
      OtherKindsKeepFinalizers(st, moves[0]);
      OtherKindsNeverRegister(Make(st, moves[0]), moves[1..]);
    }
  }

  // ----- when another kind can be orphaned -----

  /** A run of `s` can create the group: a location is configured, or another group can be asked for one. */
  predicate CanMakeGroup(s: Scope) {
    s.location != "" || (s.managementGroup.Some? && GroupId(s.subscription, s.managementGroup.value) != s.ResourceGroup())
  }

  predicate OnlyScope(s: Scope, moves: seq<Move>) {
    forall m | m in moves && m.Fetch? :: m.scope == s
  }

  /** No fair play of runs of `s` ever orphans its resources. */
  ghost predicate NeverOrphaned(w: World, s: Scope, st: State)
    requires s.name in w.subscriptions
  {
    forall moves: seq<Move> | AllFair(w, s.name, st, moves) && OnlyScope(s, moves) :: NoOrphans(w, s.name, Play(st, moves))
  }

  lemma {:induction false} FairAppend(w: World, n: string, st: State, p: seq<Move>, q: seq<Move>)
    requires n in w.subscriptions && AllFair(w, n, st, p) && AllFair(w, n, Play(st, p), q)
    ensures AllFair(w, n, st, p + q) && Play(st, p + q) == Play(Play(st, p), q)
    decreases p
  {
    PlayAppend(st, p, q);
    if p == [] {
      assert p + q == q;
    } else {
      FairAppend(w, n, Make(st, p[0]), p[1..], q);
      assert (p + q)[0] == p[0] && (p + q)[1..] == p[1..] + q;
    }
  }

  lemma FairOne(w: World, n: string, st: State, m: Move)
    requires n in w.subscriptions && FairMove(w, n, st, m)
    ensures AllFair(w, n, st, [m]) && Play(st, [m]) == Make(st, m)
  {
    assert AllFair(w, n, Make(st, m), [m][1..]);
  }

  /** One more fair move at the end of a play. */
  lemma FairMore(w: World, n: string, st: State, moves: seq<Move>, m: Move)
    requires n in w.subscriptions && AllFair(w, n, st, moves) && FairMove(w, n, Play(st, moves), m)
    ensures AllFair(w, n, st, moves + [m]) && Play(st, moves + [m]) == Make(Play(st, moves), m)
  {
    FairOne(w, n, Play(st, moves), m);
    FairAppend(w, n, st, moves, [m]);
  }

  const OK := Step(Outcome(Done, [], []))

  /** The state in which others have replaced the object by one without finalizers, and a location can be found. */
  lemma Undermined(w: World, s: Scope, server: Server, az: Azure) returns (moves: seq<Move>, version: nat, az': Azure)
    requires Placed(w, s) && !Guarded(server) && !HasResources(w, s.name, az) && CanMakeGroup(s)
    ensures AllFair(w, s.name, State(server, az, Idle), moves) && OnlyScope(s, moves)
    ensures Play(State(server, az, Idle), moves) == State(Server(Some(Infra(version, false, {}, [])), version + 1), az', Idle)
    ensures s.ResourceGroup() !in az'.groups
    ensures s.location != "" || (s.managementGroup.Some? && GroupId(s.subscription, s.managementGroup.value) in az'.groups)
  {
    var st, n := State(server, az, Idle), s.name;
    assert s.ResourceGroup() == w.GroupOf(n);
    moves := [DeletionRequest];
    FairOne(w, n, st, DeletionRequest);
    FairMore(w, n, st, moves, OtherWrite({}, []));
    moves := moves + [OtherWrite({}, [])];
    var gone := Play(st, moves);
    assert gone.server.stored.None? && gone.az == az && gone.stage == Idle;
    FairMore(w, n, st, moves, Creation({}));
    moves, version := moves + [Creation({})], gone.server.next;
    az' := if s.location != "" then az
           else PutGroup(az, GroupId(s.subscription, s.managementGroup.value), Group("westeurope", map[]));
    assert NsOf(w, n, az') == NsOf(w, n, az);
    FairMore(w, n, st, moves, OtherAzure(az'));
    moves := moves + [OtherAzure(az')];
  }

  predicate AllDone(moves: seq<Move>) {
    forall m | m in moves && m.Step? :: m.outcome.reply.Done?
  }

  /** The registration of an object without finalizers is answered, and leaves the object as it was. */
  lemma EmptyRegistration(w: World, s: Scope, version: nat, az: Azure) returns (moves: seq<Move>)
    requires Placed(w, s) && s.kind.OtherKind?
    ensures var bare := Infra(version, false, {}, []); var server := Server(Some(bare), version + 1);
            var st := State(server, az, Idle);
            && AllFair(w, s.name, st, moves) && OnlyScope(s, moves) && AllDone(moves)
            && Play(st, moves) == State(server, az, Public(s, bare, false, GetGroup))
  {
    var n, bare := s.name, Infra(version, false, {}, []);
    var st := State(Server(Some(bare), version + 1), az, Idle);
    assert bare.finalizers + {FINALIZER} == {FINALIZER};
    moves := [Fetch(s, false)];
    FairOne(w, n, st, moves[0]);
    FairMore(w, n, st, moves, OK);
    moves := moves + [OK];
    assert Play(st, moves) == State(st.server, az, Patch(s, bare, true, Registered));
    FairMore(w, n, st, moves, OK);
    moves := moves + [OK];
  }

  /** From there a run whose calls are all answered creates the group; a deletion request then removes the object at once. */
  lemma OrphaningRun(w: World, s: Scope, version: nat, az: Azure) returns (moves: seq<Move>)
    requires Placed(w, s) && s.kind.OtherKind? && s.ResourceGroup() !in az.groups
    requires s.location != "" || (s.managementGroup.Some? && GroupId(s.subscription, s.managementGroup.value) in az.groups)
    ensures var st := State(Server(Some(Infra(version, false, {}, [])), version + 1), az, Idle);
            && AllFair(w, s.name, st, moves) && OnlyScope(s, moves) && AllDone(moves)
            && s.ResourceGroup() in Play(st, moves).az.groups && Play(st, moves).server.stored.None?
  {
    var n, bare := s.name, Infra(version, false, {}, []);
    var server := Server(Some(bare), version + 1);
    var st := State(server, az, Idle);
    moves := EmptyRegistration(w, s, version, az);
    FairMore(w, n, st, moves, OK);
    moves := moves + [OK];
    if s.location == "" {
      assert Play(st, moves) == State(server, az, Public(s, bare, false, GetManagementGroup));
      FairMore(w, n, st, moves, OK);
      moves := moves + [OK];
    }
    assert Play(st, moves).stage.pc.WriteGroup? && Play(st, moves).server == server;
    FairMore(w, n, st, moves, OK);
    moves := moves + [OK];
    FairMore(w, n, st, moves, DeletionRequest);
    moves := moves + [DeletionRequest];
  }

  lemma {:induction false} GuardedStays(w: World, s: Scope, st: State, moves: seq<Move>)
    requires Placed(w, s) && s.kind.OtherKind? && Faithful(st) && Collected(st.server) && Guarded(st.server)
    requires AllFair(w, s.name, st, moves) && OnlyScope(s, moves)
    ensures NoOrphans(w, s.name, Play(st, moves))
    decreases moves
  {
    if moves != [] {
      OtherKindsKeepFinalizers(st, moves[0]);
      assert Guarded(Make(st, moves[0]).server);
      GuardedStays(w, s, Make(st, moves[0]), moves[1..]);
    }
  }

  /** Where a run that cannot create its group can be. */
  predicate Powerless(w: World, s: Scope, st: State)
    requires s.name in w.subscriptions
  {
    && !HasResources(w, s.name, st.az)
    && (!st.stage.Idle? ==> st.stage.scope == s && !st.stage.Publish?)
    && (st.stage.Public? && st.stage.delete ==> st.stage.pc.DeleteNs? || st.stage.pc.DeleteGroup? || st.stage.pc.Stopped?)
    && (st.stage.Public? && !st.stage.delete ==>
          st.stage.pc.GetGroup? || st.stage.pc.GetManagementGroup? || st.stage.pc == Stopped(false))
    && (st.stage.Public? && st.stage.pc.GetManagementGroup? ==> s.location == "")
  }

  lemma PowerlessMove(w: World, s: Scope, st: State, m: Move)
    requires Placed(w, s) && s.kind.OtherKind? && !CanMakeGroup(s) && Powerless(w, s, st)
    requires FairMove(w, s.name, st, m) && (m.Fetch? ==> m.scope == s)
    ensures Powerless(w, s, Make(st, m))
  {
    assert s.ResourceGroup() == w.GroupOf(s.name) && s.BaseZone() == w.BaseZone();
  }

  lemma {:induction false} PowerlessStays(w: World, s: Scope, st: State, moves: seq<Move>)
    requires Placed(w, s) && s.kind.OtherKind? && !CanMakeGroup(s) && Powerless(w, s, st)
    requires AllFair(w, s.name, st, moves) && OnlyScope(s, moves)
    ensures NoOrphans(w, s.name, Play(st, moves))
    decreases moves
  {
    if moves != [] {
      PowerlessMove(w, s, st, moves[0]);
      PowerlessStays(w, s, Make(st, moves[0]), moves[1..]);
    }
  }

  /**
   The exact condition for the other kinds: no fair play orphans anything exactly if the stored
   object already carries the operator's finalizer, or there is nothing yet and no run could create it.
   */
  lemma OtherKindsNeverOrphanedIff(w: World, s: Scope, server: Server, az: Azure)
    requires Placed(w, s) && s.kind.OtherKind? && Faithful(State(server, az, Idle)) && Collected(server)
    ensures NeverOrphaned(w, s, State(server, az, Idle))
       <==> Guarded(server) || (!HasResources(w, s.name, az) && !CanMakeGroup(s))
  {
    var st := State(server, az, Idle);
    if Guarded(server) {
      forall moves: seq<Move> | AllFair(w, s.name, st, moves) && OnlyScope(s, moves) ensures NoOrphans(w, s.name, Play(st, moves)) {
        GuardedStays(w, s, st, moves);
      }
    } else if HasResources(w, s.name, az) {
      assert AllFair(w, s.name, st, []) && OnlyScope(s, []) && !NoOrphans(w, s.name, Play(st, []));
    } else if CanMakeGroup(s) {
      var p, version, az' := Undermined(w, s, server, az);
      var q := OrphaningRun(w, s, version, az');
      FairAppend(w, s.name, st, p, q);
      assert OnlyScope(s, p + q) && s.ResourceGroup() == w.GroupOf(s.name);
      assert !NoOrphans(w, s.name, Play(st, p + q));
    } else {
      forall moves: seq<Move> | AllFair(w, s.name, st, moves) && OnlyScope(s, moves) ensures NoOrphans(w, s.name, Play(st, moves)) {
        PowerlessStays(w, s, st, moves);
      }
    }
  }
}
