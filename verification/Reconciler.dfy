/**
 The controller and the common patcher as they are written; every execution is proved to be a
 play of the finalizer protocol (controllers/cluster_controller.go, pkg/infracluster/common_patcher.go).
 */
module Reconciler {
  import opened AzureModel
  import opened DesiredRecords
  import opened PublicRun
  import opened PublicService
  import opened Clusters
  import opened Conditions
  import opened Finalizer
  import opened RecordDiff
  import opened Convergence
  import opened Work
  import opened Completion
  import Delegation

  /** The unstructured object in the hands of a run, changed in place. */
  class InfraObject {
    var value: Infra

    constructor (value: Infra)
      ensures this.value == value
    {
      this.value := value;
    }

    method AddFinalizer()
      modifies this
      ensures value == old(value).(finalizers := old(value).finalizers + {FINALIZER})
    {
      value := value.(finalizers := value.finalizers + {FINALIZER});
    }

    method RemoveFinalizer()
      modifies this
      ensures value == old(value).(finalizers := old(value).finalizers - {FINALIZER})
    {
      value := value.(finalizers := value.finalizers - {FINALIZER});
    }
  }

  /** The API server; how its calls end is picked by an oracle. */
  class ApiServer {
    var server: LiveServer
    var clock: nat
    const replies: nat -> Reply

    constructor (server: LiveServer, replies: nat -> Reply)
      ensures this.server == server && clock == 0 && this.replies == replies
    {
      this.server, clock, this.replies := server, 0, replies;
    }

    /** All calls since the old state were answered. */
    twostate predicate AllDone()
      reads this
    {
      old(clock) <= clock && forall t | old(clock) <= t < clock :: replies(t).Done?
    }

    /** What an accepted or rejected call makes of the server, of the local copy and of the answer. */
    twostate predicate Did(result: ApiResult, local: InfraObject, ok: bool)
      reads this, local
    {
      && clock == old(clock) + 1
      && ok == (result.Accepted? && replies(old(clock)).Done?)
      && server == (if result.Accepted? && !replies(old(clock)).Failed? then result.server else old(server))
      && local.value == (if ok then result.answer else old(local.value))
    }

    method Update(local: InfraObject) returns (ok: bool)
      modifies this, local
      ensures Did(Finalizer.Update(old(server), old(local.value)), local, ok)
    {
      var result := Finalizer.Update(server, local.value);
      var reply := replies(clock);
      clock := clock + 1;
      if result.Rejected? { return false; }
      if !reply.Failed? { server := result.server; }
      if reply.Done? { local.value := result.answer; }
      return reply.Done?;
    }

    method StatusUpdate(local: InfraObject) returns (ok: bool)
      modifies this, local
      ensures Did(Finalizer.StatusUpdate(old(server), old(local.value)), local, ok)
    {
      var result := Finalizer.StatusUpdate(server, local.value);
      var reply := replies(clock);
      clock := clock + 1;
      if result.Rejected? { return false; }
      if !reply.Failed? { server := result.server; }
      if reply.Done? { local.value := result.answer; }
      return reply.Done?;
    }
  }

  function Answered(reply: Reply): Move { Step(Outcome(reply, [], [])) }

  class CommonPatcher {
    const scope: Scope
    const infraCluster: InfraObject
    const api: ApiServer

    constructor (scope: Scope, infraCluster: InfraObject, api: ApiServer)
      ensures this.scope == scope && this.infraCluster == infraCluster && this.api == api
    {
      this.scope, this.infraCluster, this.api := scope, infraCluster, api;
    }

    /** The server's object is the local copy, unless it was deleted with its last finalizer. */
    predicate Persisted()
      reads infraCluster, api
    {
      api.server.stored ==
        if infraCluster.value.deleting && infraCluster.value.finalizers == {} then None else Some(infraCluster.value)
    }

    /**
     What a patch makes of the objects: it is accepted exactly if its calls are answered and the local
     copy is not stale; then metadata is persisted for AzureASOManagedCluster, and status for other kinds.
     */
    twostate predicate Patched(ok: bool)
      reads api, infraCluster
    {
      var stored, local := old(api.server).stored, old(infraCluster.value);
      && old(api.clock) < api.clock
      && (ok <==>
            && api.AllDone() && stored.Some? && stored.value.version == local.version
            && (scope.kind.AzureASOManagedCluster? && stored.value.deleting ==> local.finalizers <= stored.value.finalizers))
      && (ok ==>
            && Persisted() && api.clock == old(api.clock) + (if scope.kind.AzureASOManagedCluster? then 1 else 2)
            && infraCluster.value.deleting == stored.value.deleting
            && infraCluster.value.finalizers
               == (if scope.kind.AzureASOManagedCluster? then local.finalizers else stored.value.finalizers)
            && infraCluster.value.conditions
               == (if scope.kind.AzureASOManagedCluster? then stored.value.conditions else local.conditions))
    }

    /**
     For AzureASOManagedCluster a successful patch makes the server's finalizers the local ones; for
     every other kind the server's finalizers stay what they were.  The ghost result lists the calls.
     */
    method PatchObject(ghost az: Azure, ghost after: Then) returns (ok: bool, ghost moves: seq<Move>)
      modifies api, infraCluster
      ensures Patched(ok)
      ensures !scope.kind.AzureASOManagedCluster? ==>
                FinalizersOf(api.server) == FinalizersOf(old(api.server))
      ensures OperatorMoves(scope, moves)
      ensures Play(State(old(api.server), az, Finalizer.PatchObject(scope, old(infraCluster.value), after)), moves)
           == State(api.server, az, if ok then AfterPatch(scope, infraCluster.value, after)
                                    else Finalizer.Close(scope, infraCluster.value, after))
    {
      moves := [];
      ghost var start := State(api.server, az, Finalizer.PatchObject(scope, infraCluster.value, after));
      if !scope.kind.AzureASOManagedCluster? {
        ghost var m := Answered(api.replies(api.clock));
        PlayOne(start, m);
        moves := [m];
        ok := api.StatusUpdate(infraCluster);
        if !ok { return; }
      }
      ghost var m := Answered(api.replies(api.clock));
      ghost var mid := State(api.server, az, Patch(scope, infraCluster.value, true, after));
      assert Play(start, moves) == mid;
      PlayOne(mid, m);
      PlayAppend(start, moves, [m]);
      moves := moves + [m];
      ok := api.Update(infraCluster);
    }

    /** Close patches once more; the run is over whatever it answers. */
    method Close(ghost az: Azure) returns (ok: bool, ghost moves: seq<Move>)
      modifies api, infraCluster
      ensures Patched(ok)
      ensures OperatorMoves(scope, moves)
      ensures Play(State(old(api.server), az, Finalizer.PatchObject(scope, old(infraCluster.value), Closed)), moves)
           == State(api.server, az, Idle)
    {
      ok, moves := PatchObject(az, Closed);
    }
  }

  ghost predicate OperatorMoves(s: Scope, moves: seq<Move>) {
    forall m | m in moves :: OperatorMove(m) && (m.Fetch? ==> m.scope == s)
  }

  function PublicMoves(oracle: nat -> Outcome, t: nat, n: nat): seq<Move> {
    seq(n, i requires 0 <= i => Step(oracle(t + i)))
  }

  /** A run of the DNS service is part of a play. */
  lemma {:induction false} PublicPlay(server: Server, s: Scope, local: Infra, delete: bool, oracle: nat -> Outcome,
                                      pc: Pc, az: Azure, t: nat, n: nat)
    ensures var (pc', az') := Steps(s, pc, az, seq(n, i requires 0 <= i => oracle(t + i)));
            Play(State(server, az, Public(s, local, delete, pc)), PublicMoves(oracle, t, n))
            == State(server, az', Public(s, local, delete, pc'))
    ensures OperatorMoves(s, PublicMoves(oracle, t, n))
    decreases n
  {
    if n > 0 {
      var feed := seq(n, i requires 0 <= i => oracle(t + i));
      var moves := PublicMoves(oracle, t, n);
      var o := oracle(t);
      PublicPlay(server, s, local, delete, oracle, Next(s, pc, az, o), Effect(s, pc, az, o), t + 1, n - 1);
      assert feed[0] == o && feed[1..] == seq(n - 1, i requires 0 <= i => oracle(t + 1 + i));
      assert moves[0] == Step(o) && moves[1..] == PublicMoves(oracle, t + 1, n - 1);
    }
  }

  /** The LoadBalancersReady condition only has to be present; its status is not looked at. */
  method IsClusterReady(kind: Kind, phase: string, status: Option<seq<Condition>>) returns (ready: bool)
    ensures ready <==> phase == "Provisioned" &&
                       (kind.AzureCluster? ==> status.Some? && HasType(status.value, "LoadBalancersReady"))
  {
    if phase != "Provisioned" { return false; }
    if kind.AzureCluster? {
      var infraClusterIsReady := false;
      if status.Some? {
        for i := 0 to |status.value|
          invariant infraClusterIsReady == HasType(status.value[..i], "LoadBalancersReady")
        {
          assert status.value[..i + 1] == status.value[..i] + [status.value[i]];
          if status.value[i].ctype == "LoadBalancersReady" {
            infraClusterIsReady := true;
            assert status.value[i] in status.value;
            break;
          }
        }
        assert status.value[..|status.value|] == status.value;
      }
      if !infraClusterIsReady { return false; }
    }
    return true;
  }

  function Items(conditions: seq<Condition>): (r: seq<Item>)
    ensures |r| == |conditions| && forall i | 0 <= i < |r| :: r[i] == Map(conditions[i])
  {
    seq(|conditions|, i requires 0 <= i < |conditions| => Map(conditions[i]))
  }

  /** The ready condition is there, and says so. */
  predicate ReadySet(conditions: seq<Condition>) {
    && HasType(conditions, "GSDNSZoneReady")
    && forall c | c in conditions && c.ctype == "GSDNSZoneReady" :: c.status == "True"
  }

  /** For a kind served by the common patcher; `now` is the time, `credentials` whether the service could be built. */
  class ClusterReconciler {
    const api: ApiServer
    const client: AzureClient

    constructor (api: ApiServer, client: AzureClient)
      ensures this.api == api && this.client == client
    {
      this.api, this.client := api, client;
    }

    /** `moves` take the protocol from `stage` in the old state to `stage'` now. */
    twostate predicate Played(moves: seq<Move>, stage: Stage, stage': Stage)
      reads api, client
    {
      Play(State(old(api.server), old(client.State()), stage), moves) == State(api.server, client.State(), stage')
    }

    /** The DNS service has made all the calls of one run, and the run has ended like this. */
    twostate predicate Ran(scope: Scope, delete: bool, ok: bool)
      reads client
    {
      Reaches(scope, client.oracle, Begin(scope, delete), old(client.State()), old(client.clock),
              Stopped(ok), client.State(), client.clock)
    }

    /** The DNS service has not been called. */
    twostate predicate Untouched()
      reads client
    {
      client.State() == old(client.State()) && client.clock == old(client.clock)
    }

    /** The API server answers all calls from now on. */
    ghost predicate Answering()
      reads api
    {
      forall t | api.clock <= t :: api.replies(t).Done?
    }

    /** The local copy is the object as the server has it. */
    ghost predicate InSync(infraCluster: InfraObject)
      reads api, infraCluster
    {
      api.server.stored == Some(infraCluster.value) && !infraCluster.value.deleting
    }

    /**
     What a reconciliation of an object that is not being deleted comes to.  It publishes only what a
     complete successful run of the DNS service has made; without an answer to the contrary it makes that run.
     */
    twostate predicate NormalResult(scope: Scope, phase: string, credentials: bool, ok: bool)
      reads api, client
    {
      && old(api.clock) < api.clock && (ok ==> api.AllDone())
      && (phase != "Provisioned" || !credentials ==> Untouched())
      && (ok && phase == "Provisioned" ==> credentials && Ran(scope, false, true))
      && (ok && scope.kind.AzureASOManagedCluster? ==> Guarded(api.server))
      && (ok && !scope.kind.AzureASOManagedCluster? && phase == "Provisioned" ==>
            api.server.stored.Some? && ReadySet(api.server.stored.value.conditions))
      && (old(Guarded(api.server)) && phase == "Provisioned" && credentials ==> Ran(scope, false, true) || Ran(scope, false, false))
      && (old(Answering()) ==> if phase != "Provisioned" then ok else if credentials then Ran(scope, false, ok) else !ok)
    }

    /** What a reconciliation of a deleted object comes to: the finalizer goes only after a complete successful delete run. */
    twostate predicate DeleteResult(scope: Scope, credentials: bool, ok: bool)
      reads api, client
    {
      && old(api.clock) < api.clock && (ok ==> api.AllDone() && Ran(scope, true, true))
      && (if credentials then Ran(scope, true, true) || Ran(scope, true, false) else Untouched() && !ok)
      && (ok && scope.kind.AzureASOManagedCluster? ==> !Guarded(api.server))
      && (old(Answering()) && credentials ==> Ran(scope, true, ok))
    }

    /** The DNS service inside a run: a play of the Public stage. */
    method RunPublic(scope: Scope, local: Infra, delete: bool, now: nat) returns (ok: bool, ghost moves: seq<Move>)
      modifies client
      ensures Ran(scope, delete, ok)
      ensures OperatorMoves(scope, moves)
      ensures Played(moves, Public(scope, local, delete, Begin(scope, delete)), AfterPublic(scope, local, delete, ok, now))
    {
      ghost var az, t, server := client.State(), client.clock, api.server;
      var name := new StringCell(scope.name);
      var service := new DnsService(scope, client, name);
      if delete { ok := service.ReconcileDelete(); } else { ok := service.Reconcile(); }
      ghost var start := State(server, az, Public(scope, local, delete, Begin(scope, delete)));
      ghost var calls := PublicMoves(client.oracle, t, client.clock - t);
      PublicPlay(server, scope, local, delete, client.oracle, Begin(scope, delete), az, t, client.clock - t);
      PlayAppend(start, calls, [Proceed(now)]);
      PlayOne(State(server, client.State(), Public(scope, local, delete, Stopped(ok))), Proceed(now));
      moves := calls + [Proceed(now)];
    }

    method RegisterFinalizer(scope: Scope, infraCluster: InfraObject, patcher: CommonPatcher)
      returns (ok: bool, ghost moves: seq<Move>)
      requires patcher.scope == scope && patcher.infraCluster == infraCluster && patcher.api == api
      requires !infraCluster.value.deleting
      modifies api, infraCluster
      ensures old(api.clock) <= api.clock && (ok ==> api.AllDone())
      ensures FINALIZER in old(infraCluster.value).finalizers ==>
                ok && api.server == old(api.server) && api.clock == old(api.clock) && infraCluster.value == old(infraCluster.value)
      ensures old(InSync(infraCluster)) && ok ==>
                InSync(infraCluster) && (scope.kind.AzureASOManagedCluster? ==> FINALIZER in infraCluster.value.finalizers)
      ensures FINALIZER !in old(infraCluster.value).finalizers ==> old(api.clock) < api.clock
      ensures old(InSync(infraCluster) && Answering()) ==> ok && Answering()
      ensures OperatorMoves(scope, moves)
      ensures Played(moves, Fetched(scope, old(infraCluster.value), false),
                     if ok then Public(scope, infraCluster.value, false, Begin(scope, false))
                     else Finalizer.PatchObject(scope, infraCluster.value, Closed))
    {
      ok, moves := true, [];
      if FINALIZER !in infraCluster.value.finalizers {
        infraCluster.AddFinalizer();
        ok, moves := patcher.PatchObject(client.State(), Registered);
      }
    }

    /** The ready condition, written to the status. */
    method WriteReady(scope: Scope, infraCluster: InfraObject, now: nat) returns (ok: bool, ghost moves: seq<Move>)
      requires !scope.kind.AzureASOManagedCluster?
      modifies api, infraCluster
      ensures old(api.clock) <= api.clock && (ok ==> api.AllDone())
      ensures old(InSync(infraCluster)) && ok ==>
                && InSync(infraCluster) && infraCluster.value.finalizers == old(infraCluster.value).finalizers
                && ReadySet(infraCluster.value.conditions)
      ensures old(InSync(infraCluster) && Answering()) ==> ok && Answering()
      ensures OperatorMoves(scope, moves)
      ensures Played(moves, AfterPublic(scope, old(infraCluster.value), false, true, now),
                     Finalizer.PatchObject(scope, infraCluster.value, if ok then Finished else Closed))
    {
      ghost var start := State(api.server, client.State(), AfterPublic(scope, infraCluster.value, false, true, now));
      var conditions := infraCluster.value.conditions;
      var updated := SetCapiCondition(Items(conditions), READY, now);
      UpsertIsLocal(conditions, READY, now);
      assert Converted(Items(conditions)) == conditions;
      infraCluster.value := infraCluster.value.(conditions := updated.value);
      ghost var m := Answered(api.replies(api.clock));
      PlayOne(start, m);
      moves := [m];
      StatusUpdateMeaning(api.server, infraCluster.value);
      ok := api.StatusUpdate(infraCluster);
    }

    /** The ready condition of every kind but AzureASOManagedCluster, and the last patch. */
    method PublishReady(scope: Scope, infraCluster: InfraObject, patcher: CommonPatcher, now: nat)
      returns (ok: bool, ghost moves: seq<Move>)
      requires patcher.scope == scope && patcher.infraCluster == infraCluster && patcher.api == api
      modifies api, infraCluster
      ensures old(api.clock) <= api.clock && (ok ==> api.AllDone())
      ensures old(InSync(infraCluster)) && ok ==>
                && InSync(infraCluster) && infraCluster.value.finalizers == old(infraCluster.value).finalizers
                && (!scope.kind.AzureASOManagedCluster? ==> ReadySet(infraCluster.value.conditions))
      ensures old(InSync(infraCluster) && Answering()) ==> ok && Answering()
      ensures OperatorMoves(scope, moves)
      ensures Played(moves, AfterPublic(scope, old(infraCluster.value), false, true, now),
                     Finalizer.PatchObject(scope, infraCluster.value, Closed))
    {
      moves := [];
      ghost var start := State(api.server, client.State(), AfterPublic(scope, infraCluster.value, false, true, now));
      if !scope.kind.AzureASOManagedCluster? {
        ok, moves := WriteReady(scope, infraCluster, now);
        if !ok { return; }
      }
      ghost var more;
      ok, more := patcher.PatchObject(client.State(), Finished);
      PlayAppend(start, moves, more);
      moves := moves + more;
    }

    method ReconcileNormal(scope: Scope, infraCluster: InfraObject, patcher: CommonPatcher,
                           phase: string, credentials: bool, now: nat) returns (ok: bool, ghost moves: seq<Move>)
      requires patcher.scope == scope && patcher.infraCluster == infraCluster && patcher.api == api
      requires !scope.kind.AzureCluster? && !infraCluster.value.deleting
      modifies api, infraCluster, client
      ensures old(api.clock) <= api.clock && (ok ==> api.AllDone())
      ensures phase != "Provisioned" || !credentials ==> Untouched()
      ensures Untouched() || Ran(scope, false, true) || Ran(scope, false, false)
      ensures phase == "Provisioned" && ok ==> credentials && Ran(scope, false, true)
      ensures phase == "Provisioned" && credentials && FINALIZER in old(infraCluster.value).finalizers ==>
                Ran(scope, false, true) || Ran(scope, false, false)
      ensures old(InSync(infraCluster)) && ok ==>
                && InSync(infraCluster)
                && (scope.kind.AzureASOManagedCluster? ==> FINALIZER in infraCluster.value.finalizers)
                && (phase == "Provisioned" && !scope.kind.AzureASOManagedCluster? ==> ReadySet(infraCluster.value.conditions))
      ensures old(InSync(infraCluster) && Answering()) ==>
                && InSync(infraCluster) && Answering()
                && (scope.kind.AzureASOManagedCluster? ==> FINALIZER in infraCluster.value.finalizers)
                && (if phase != "Provisioned" then ok else if credentials then Ran(scope, false, ok) else !ok)
      ensures OperatorMoves(scope, moves)
      ensures Played(moves, Fetched(scope, old(infraCluster.value), false),
                     Finalizer.PatchObject(scope, infraCluster.value, Closed))
    {
      ghost var start := State(api.server, client.State(), Fetched(scope, infraCluster.value, false));
      ok, moves := RegisterFinalizer(scope, infraCluster, patcher);
      if !ok { return; }
      ghost var public := Public(scope, infraCluster.value, false, Begin(scope, false));
      var ready := IsClusterReady(scope.kind, phase, None);
      if !ready || !credentials {
        PlayAppend(start, moves, [Leave]);
        PlayOne(State(api.server, client.State(), public), Leave);
        moves := moves + [Leave];
        return !ready, moves;
      }
      ghost var more;
      ok, more := RunPublic(scope, infraCluster.value, false, now);
      PlayAppend(start, moves, more);
      moves := moves + more;
      if !ok { return; }
      ok, more := PublishReady(scope, infraCluster, patcher, now);
      PlayAppend(start, moves, more);
      moves := moves + more;
    }

    method ReconcileDelete(scope: Scope, infraCluster: InfraObject, patcher: CommonPatcher,
                           credentials: bool, now: nat) returns (ok: bool, ghost moves: seq<Move>)
      requires patcher.scope == scope && patcher.infraCluster == infraCluster && patcher.api == api
      requires !scope.kind.AzureCluster?
      modifies infraCluster, client
      ensures if credentials then Ran(scope, true, ok) else Untouched() && !ok
      ensures infraCluster.value == if ok then old(infraCluster.value).(finalizers := old(infraCluster.value).finalizers - {FINALIZER})
                                    else old(infraCluster.value)
      ensures OperatorMoves(scope, moves)
      ensures Played(moves, Public(scope, old(infraCluster.value), true, Begin(scope, true)),
                     Finalizer.PatchObject(scope, infraCluster.value, Closed))
    {
      if !credentials {
        PlayOne(State(api.server, client.State(), Public(scope, infraCluster.value, true, Begin(scope, true))), Leave);
        return false, [Leave];
      }
      ok, moves := RunPublic(scope, infraCluster.value, true, now);
      if !ok { return; }
      if FINALIZER in infraCluster.value.finalizers {
        infraCluster.RemoveFinalizer();
      } else {
        assert infraCluster.value.finalizers - {FINALIZER} == infraCluster.value.finalizers;
      }
    }

    /** The conditions of success of a reconcile run: what it needs was there, and its calls were answered. */
    twostate predicate Succeeds(scope: Scope)
      reads client
    {
      && scope.DesiredA().Some? && ZoneId(scope.baseGroup, scope.baseDomain) in old(client.State()).zones
      && LocationKnown(scope, old(client.State()))
      && old(client.clock) <= client.clock
      && AnsweredToTheEnd(scope, Begin(scope, false), old(client.State()), Feed(client.oracle, old(client.clock), client.clock))
    }

    twostate predicate DeleteSucceeds(scope: Scope)
      reads client
    {
      && ZoneId(scope.baseGroup, scope.baseDomain) in old(client.State()).zones
      && client.oracle(old(client.clock)).reply.Done?
      && (scope.kind.AzureCluster? || client.oracle(old(client.clock) + 1).reply.Done?)
    }

    /** The run of the object, and the deferred Close. */
    method ReconcileObject(scope: Scope, deleting: bool, phase: string, credentials: bool, now: nat)
      returns (ok: bool, ghost moves: seq<Move>)
      requires !scope.kind.AzureCluster? && api.server.stored.Some?
      requires api.server.stored.value.deleting ==> deleting
      modifies api, client
      ensures if deleting then DeleteResult(scope, credentials, ok) else NormalResult(scope, phase, credentials, ok)
      ensures OperatorMoves(scope, moves)
      ensures Played(moves, Idle, Idle)
    {
      ghost var start := State(api.server, client.State(), Idle);
      var infraCluster := new InfraObject(api.server.stored.value);
      var patcher := new CommonPatcher(scope, infraCluster, api);
      ghost var fetch, more := Fetch(scope, deleting), [];
      PlayOne(start, fetch);
      if deleting {
        ok, more := ReconcileDelete(scope, infraCluster, patcher, credentials, now);
      } else {
        ok, more := ReconcileNormal(scope, infraCluster, patcher, phase, credentials, now);
      }
      PlayAppend(start, [fetch], more);
      moves := [fetch] + more;
      var closed;
      closed, more := patcher.Close(client.State());
      ok := ok && closed;
      PlayAppend(start, moves, more);
      moves := moves + more;
    }

    /**
     One reconciliation with the deferred Close.  Of an object that is not being deleted it succeeds, the
     API server answering, exactly if the DNS service does, and the cluster has then converged; of a deleted one
     exactly if the delete run does, and then all resources are gone.  It is a play of the protocol made of the
     operator's own moves, so an AzureASOManagedCluster whose resources were guarded keeps them guarded.
     */
    method Reconcile(scope: Scope, clusterDeleted: bool, phase: string, credentials: bool, now: nat, ghost w: World)
      returns (ok: bool, ghost moves: seq<Move>)
      requires !scope.kind.AzureCluster?
      modifies api, client
      ensures var stored := old(api.server).stored;
              if stored.None? then ok && Untouched() && api.server == old(api.server)
              else if clusterDeleted || stored.value.deleting then
                && DeleteResult(scope, credentials, ok)
                && (ok && Placed(w, scope) ==> Delegation.Deleted(w, scope, client.State()))
                && (Placed(w, scope) && credentials && old(Answering()) ==> (ok <==> DeleteSucceeds(scope)))
              else
                && NormalResult(scope, phase, credentials, ok)
                && (phase == "Provisioned" && ok && Sane(scope) && CleanStart(scope, old(client.State())) ==>
                      Converged(scope, old(client.State()), client.State()))
                && (phase == "Provisioned" && credentials && old(Answering()) ==> (ok <==> Succeeds(scope)))
      ensures OperatorMoves(scope, moves)
      ensures Played(moves, Idle, Idle)
      ensures Placed(w, scope) && scope.kind.AzureASOManagedCluster? &&
              NoOrphans(w, scope.name, State(old(api.server), old(client.State()), Idle)) ==>
                NoOrphans(w, scope.name, State(api.server, client.State(), Idle))
    {
      ghost var start, t := State(api.server, client.State(), Idle), client.clock;
      moves := [];
      if api.server.stored.None? { return true, moves; }
      var deleting := clusterDeleted || api.server.stored.value.deleting;
      ok, moves := ReconcileObject(scope, deleting, phase, credentials, now);
      forall done | Reaches(scope, client.oracle, Begin(scope, false), start.az, t, Stopped(done), client.State(), client.clock)
        ensures done <==> Succeeds(scope)
        ensures done && Sane(scope) && CleanStart(scope, start.az) ==> Converged(scope, start.az, client.State())
      {
        ReachedSuccessIff(scope, client.oracle, start.az, t, done, client.State(), client.clock);
      }
      forall done | Placed(w, scope) &&
                    Reaches(scope, client.oracle, Begin(scope, true), start.az, t, Stopped(done), client.State(), client.clock)
        ensures (done <==> DeleteSucceeds(scope)) && (done ==> Delegation.Deleted(w, scope, client.State()))
      {
        Delegation.ReachedDeletion(w, scope, client.oracle, start.az, t, done, client.State(), client.clock);
      }
      if Placed(w, scope) && scope.kind.AzureASOManagedCluster? && NoOrphans(w, scope.name, start) {
        OperatorMovesAreFair(w, scope, start, moves);
        ResourcesAreAlwaysGuarded(w, scope.name, start.server, start.az, moves);
      }
    }
  }

  lemma {:induction false} OperatorMovesAreFair(w: World, s: Scope, st: State, moves: seq<Move>)
    requires Placed(w, s) && OperatorMoves(s, moves)
    ensures AllFair(w, s.name, st, moves) && OfKind(s.kind, moves)
    decreases moves
  {
    if moves != [] { OperatorMovesAreFair(w, s, Make(st, moves[0]), moves[1..]); }
  }
}
