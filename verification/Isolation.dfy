/** Runs of different clusters do not influence each other, however their calls interleave. */
module Isolation {
  import opened AzureModel
  import opened DesiredRecords
  import opened PublicRun
  import opened RecordDiff
  import opened Clusters

  /** The group whose location a run asks for when none is configured. */
  function LocationGroup(s: Scope): Option<GroupId> {
    if s.kind.AzureCluster? || s.location != "" || s.managementGroup.None? then None
    else Some(GroupId(s.subscription, s.managementGroup.value))
  }

  /**
   The cluster has its kind for life, and the group it may ask for a location is not one that runs
   of another cluster create and delete; an AzureCluster's group, such as the management cluster's, is fine.
   */
  predicate Separate(w: World, s: Scope) {
    && Placed(w, s)
    && (s.kind.AzureCluster? <==> s.name in w.provided)
    && (LocationGroup(s).Some? ==> LocationGroup(s).value == s.ResourceGroup() || !w.Managed(LocationGroup(s).value))
  }

  /** The calls on resource groups that a run of this scope can be at. */
  predicate PcOk(s: Scope, pc: Pc) {
    && (pc.GetManagementGroup? ==> s.location == "")
    && (s.kind.AzureCluster? ==> !pc.GetGroup? && !pc.GetManagementGroup? && !pc.WriteGroup? && !pc.DeleteGroup?)
  }

  ghost predicate RunsSeparate(w: World, sys: System) {
    forall n | n in sys.runs ::
      n == sys.runs[n].scope.name && Separate(w, sys.runs[n].scope) && PcOk(sys.runs[n].scope, sys.runs[n].pc)
  }

  predicate SeparateAction(w: World, a: Action) {
    Admissible(w, a) && !a.Foreign? && (a.Start? ==> Separate(w, a.scope))
  }

  /** Runs of clusters of this world, and nobody else's writes. */
  predicate AllSeparate(w: World, actions: seq<Action>) {
    forall a | a in actions :: SeparateAction(w, a)
  }

  lemma DoKeepsSeparate(w: World, sys: System, a: Action)
    requires RunsSeparate(w, sys) && SeparateAction(w, a)
    ensures RunsSeparate(w, Do(sys, a))
  {}

  /** All that belongs to a cluster: its group, the zones in it but for the base zone, and its NS set. */
  datatype View = View(group: Option<Group>, zones: map<ZoneId, Zone>, ns: Option<Payload>)

  function ViewOf(w: World, n: string, az: Azure): View
    requires n in w.subscriptions
  {
    View(
      if w.GroupOf(n) in az.groups then Some(az.groups[w.GroupOf(n)]) else None,
      map z | z in az.zones && z.group == w.GroupOf(n) && z != w.BaseZone() :: az.zones[z],
      NsOf(w, n, az))
  }

  /** All that no run writes: groups the operator does not manage, zones of no cluster, the rest of the base zone. */
  function Outside(w: World, az: Azure): Azure {
    Azure(
      map g | g in az.groups && !w.Managed(g) :: az.groups[g],
      map z | z in az.zones && (!w.Owned(z.group) || z == w.BaseZone()) ::
        if z == w.BaseZone() then Zone(az.zones[z].servers, WithoutNs(w, az.zones[z].records)) else az.zones[z])
  }

  function WithoutNs(w: World, records: Records): Records {
    map k | k in records && !(k.rtype.NS? && k.name in w.subscriptions) :: records[k]
  }

  /** Two states that cluster `n` cannot tell apart. */
  ghost predicate Agree(w: World, n: string, a: Azure, b: Azure)
    requires n in w.subscriptions
  {
    ViewOf(w, n, a) == ViewOf(w, n, b) && Outside(w, a) == Outside(w, b)
  }

  lemma AgreeFacts(w: World, n: string, a: Azure, b: Azure)
    requires n in w.subscriptions && Agree(w, n, a, b)
    ensures forall g | g == w.GroupOf(n) || !w.Managed(g) :: (g in a.groups <==> g in b.groups) && (g in a.groups ==> a.groups[g] == b.groups[g])
    ensures forall z: ZoneId | z.group == w.GroupOf(n) && z != w.BaseZone() :: (z in a.zones <==> z in b.zones) && (z in a.zones ==> a.zones[z] == b.zones[z])
    ensures w.BaseZone() in a.zones <==> w.BaseZone() in b.zones
    ensures w.BaseZone() in a.zones ==> a.zones[w.BaseZone()].servers == b.zones[w.BaseZone()].servers
  {
    var va, vb := ViewOf(w, n, a), ViewOf(w, n, b);
    var oa, ob := Outside(w, a), Outside(w, b);
    forall g | g == w.GroupOf(n) || !w.Managed(g)
      ensures (g in a.groups <==> g in b.groups) && (g in a.groups ==> a.groups[g] == b.groups[g])
    {
      if g != w.GroupOf(n) {
        assert g in a.groups <==> g in oa.groups;
        assert g in b.groups <==> g in ob.groups;
      }
    }
    forall z: ZoneId | z.group == w.GroupOf(n) && z != w.BaseZone()
      ensures (z in a.zones <==> z in b.zones) && (z in a.zones ==> a.zones[z] == b.zones[z])
    {
      assert z in a.zones <==> z in va.zones;
      assert z in b.zones <==> z in vb.zones;
    }
    assert w.BaseZone() in a.zones <==> w.BaseZone() in oa.zones;
    assert w.BaseZone() in b.zones <==> w.BaseZone() in ob.zones;
  }

  /** A call changes nothing outside its own cluster's part, unless it deletes the base zone's group. */
  lemma StepStaysInside(w: World, s: Scope, pc: Pc, az: Azure, o: Outcome, n: string)
    requires Placed(w, s) && n in w.subscriptions && n != s.name
    requires pc.DeleteGroup? ==> s.ResourceGroup() != w.baseGroup
    ensures ViewOf(w, n, Effect(s, pc, az, o)) == ViewOf(w, n, az)
  {}

  /** The condition is needed: a cluster that manages the base zone's group takes all delegations along. */
  lemma NamesakeInterferes(w: World, s: Scope, az: Azure, o: Outcome, n: string)
    requires Placed(w, s) && s.ResourceGroup() == w.baseGroup && !s.kind.AzureCluster?
    requires n in w.subscriptions && n != s.name && NsOf(w, n, az).Some? && !o.reply.Failed?
    ensures ViewOf(w, n, Effect(s, DeleteGroup, az, o)) != ViewOf(w, n, az)
  {}

  lemma BaseKeptUpToNs(w: World, s: Scope, pc: Pc, az: Azure, o: Outcome)
    requires Placed(w, s) && (pc.DeleteGroup? ==> s.ResourceGroup() != w.baseGroup)
    ensures var after := Effect(s, pc, az, o);
            && (w.BaseZone() in after.zones <==> w.BaseZone() in az.zones)
            && (w.BaseZone() in az.zones ==>
                  && after.zones[w.BaseZone()].servers == az.zones[w.BaseZone()].servers
                  && WithoutNs(w, after.zones[w.BaseZone()].records) == WithoutNs(w, az.zones[w.BaseZone()].records))
  {
    BaseZoneIsNoClusterZone(w, s);
  }

  lemma OtherZoneKept(w: World, s: Scope, pc: Pc, az: Azure, o: Outcome, z: ZoneId)
    requires Placed(w, s) && !w.Owned(z.group) && z != w.BaseZone()
    ensures var after := Effect(s, pc, az, o);
            (z in after.zones <==> z in az.zones) && (z in az.zones ==> after.zones[z] == az.zones[z])
  {
    assert w.Owned(s.ResourceGroup());
  }

  lemma OtherGroupsKept(w: World, s: Scope, pc: Pc, az: Azure, o: Outcome)
    requires Separate(w, s) && PcOk(s, pc)
    ensures Outside(w, Effect(s, pc, az, o)).groups == Outside(w, az).groups
  {
    assert s.ResourceGroup() == w.GroupOf(s.name) && w.Owned(s.ResourceGroup());
  }

  /** A call changes nothing that belongs to no cluster. */
  lemma StepKeepsOutside(w: World, s: Scope, pc: Pc, az: Azure, o: Outcome)
    requires w.BaseApart() && Separate(w, s) && PcOk(s, pc)
    ensures Outside(w, Effect(s, pc, az, o)) == Outside(w, az)
  {
    var after := Effect(s, pc, az, o);
    OtherGroupsKept(w, s, pc, az, o);
    BaseKeptUpToNs(w, s, pc, az, o);
    forall z: ZoneId | !w.Owned(z.group) && z != w.BaseZone()
      ensures (z in after.zones <==> z in az.zones) && (z in az.zones ==> after.zones[z] == az.zones[z])
    {
      OtherZoneKept(w, s, pc, az, o, z);
    }
    assert Outside(w, after).zones == Outside(w, az).zones;
  }

  /**
   The condition on locations is needed: deleting the group that another cluster's run is about to
   ask for its location changes what that run does next.
   */
  lemma LocationGroupInterferes(w: World, s: Scope, other: Scope, az: Azure, o: Outcome, p: Outcome)
    requires Placed(w, s) && Placed(w, other) && s.name != other.name
    requires LocationGroup(s) == Some(other.ResourceGroup()) && other.ResourceGroup() in az.groups
    requires !o.reply.Failed? && p.reply.Done?
    ensures ViewOf(w, s.name, Effect(other, DeleteGroup, az, o)).group == ViewOf(w, s.name, az).group
    ensures Next(s, GetManagementGroup, az, p).WriteGroup?
    ensures Next(s, GetManagementGroup, Effect(other, DeleteGroup, az, o), p) == Stopped(false)
  {}

  lemma NextIsLocal(w: World, s: Scope, pc: Pc, a: Azure, b: Azure, o: Outcome)
    requires Separate(w, s) && PcOk(s, pc) && Agree(w, s.name, a, b)
    ensures Next(s, pc, a, o) == Next(s, pc, b, o)
  {
    AgreeFacts(w, s.name, a, b);
    assert s.ResourceGroup() == w.GroupOf(s.name) && s.ClusterZone().group == w.GroupOf(s.name);
    assert s.BaseZone() == w.BaseZone();
  }

  lemma ZoneIsLocal(w: World, s: Scope, pc: Pc, a: Azure, b: Azure, o: Outcome, z: ZoneId)
    requires Placed(w, s) && z.group == w.GroupOf(s.name) && z != w.BaseZone()
    requires (z in a.zones <==> z in b.zones) && (z in a.zones ==> a.zones[z] == b.zones[z])
    requires s.ResourceGroup() in a.groups <==> s.ResourceGroup() in b.groups
    ensures var a', b' := Effect(s, pc, a, o), Effect(s, pc, b, o);
            (z in a'.zones <==> z in b'.zones) && (z in a'.zones ==> a'.zones[z] == b'.zones[z])
  {}

  lemma SameZones(w: World, n: string, a: Azure, b: Azure)
    requires n in w.subscriptions
    requires forall z: ZoneId | z.group == w.GroupOf(n) && z != w.BaseZone() :: (z in a.zones <==> z in b.zones) && (z in a.zones ==> a.zones[z] == b.zones[z])
    ensures ViewOf(w, n, a).zones == ViewOf(w, n, b).zones
  {}

  lemma GroupIsLocal(w: World, s: Scope, pc: Pc, a: Azure, b: Azure, o: Outcome)
    requires Placed(w, s) && ViewOf(w, s.name, a).group == ViewOf(w, s.name, b).group
    ensures ViewOf(w, s.name, Effect(s, pc, a, o)).group == ViewOf(w, s.name, Effect(s, pc, b, o)).group
  {}

  lemma ZonesAreLocal(w: World, s: Scope, pc: Pc, a: Azure, b: Azure, o: Outcome)
    requires Placed(w, s) && Agree(w, s.name, a, b)
    ensures ViewOf(w, s.name, Effect(s, pc, a, o)).zones == ViewOf(w, s.name, Effect(s, pc, b, o)).zones
  {
    AgreeFacts(w, s.name, a, b);
    var a', b' := Effect(s, pc, a, o), Effect(s, pc, b, o);
    forall z: ZoneId | z.group == w.GroupOf(s.name) && z != w.BaseZone()
      ensures (z in a'.zones <==> z in b'.zones) && (z in a'.zones ==> a'.zones[z] == b'.zones[z])
    {
      ZoneIsLocal(w, s, pc, a, b, o, z);
    }
    SameZones(w, s.name, a', b');
  }

  lemma NsIsLocal(w: World, s: Scope, pc: Pc, a: Azure, b: Azure, o: Outcome)
    requires Placed(w, s) && Agree(w, s.name, a, b)
    ensures NsOf(w, s.name, Effect(s, pc, a, o)) == NsOf(w, s.name, Effect(s, pc, b, o))
  {
    AgreeFacts(w, s.name, a, b);
    BaseZoneIsNoClusterZone(w, s);
    assert ViewOf(w, s.name, a).ns == ViewOf(w, s.name, b).ns;
  }

  /** A call depends on its own cluster's part and on the outside only; the base listing decides nothing. */
  lemma StepIsLocal(w: World, s: Scope, pc: Pc, a: Azure, b: Azure, o: Outcome)
    requires Separate(w, s) && PcOk(s, pc) && Agree(w, s.name, a, b)
    ensures Next(s, pc, a, o) == Next(s, pc, b, o)
    ensures ViewOf(w, s.name, Effect(s, pc, a, o)) == ViewOf(w, s.name, Effect(s, pc, b, o))
  {
    NextIsLocal(w, s, pc, a, b, o);
    GroupIsLocal(w, s, pc, a, b, o);
    ZonesAreLocal(w, s, pc, a, b, o);
    NsIsLocal(w, s, pc, a, b, o);
  }

  // ----- schedules -----

  function Own(actions: seq<Action>, n: string): seq<Action> {
    if actions == [] then []
    else (if NameOf(actions[0]) == Some(n) then [actions[0]] else []) + Own(actions[1..], n)
  }

  /** Cluster `n` sees the same in both systems: state, run and outside. */
  ghost predicate Twin(w: World, n: string, a: System, b: System)
    requires n in w.subscriptions
  {
    && Agree(w, n, a.az, b.az)
    && (n in a.runs <==> n in b.runs)
    && (n in a.runs ==> a.runs[n] == b.runs[n])
  }

  lemma OwnActionKeepsTwin(w: World, n: string, a: System, b: System, x: Action)
    requires w.BaseApart() && n in w.subscriptions && RunsSeparate(w, a) && RunsSeparate(w, b)
    requires SeparateAction(w, x) && NameOf(x) == Some(n) && Twin(w, n, a, b)
    ensures Twin(w, n, Do(a, x), Do(b, x))
  {
    if x.Call? && n in a.runs {
      var Run(s, pc) := a.runs[n];
      StepIsLocal(w, s, pc, a.az, b.az, x.outcome);
      StepKeepsOutside(w, s, pc, a.az, x.outcome);
      StepKeepsOutside(w, s, pc, b.az, x.outcome);
    }
  }

  lemma OtherActionKeepsTwin(w: World, n: string, a: System, b: System, x: Action)
    requires w.BaseApart() && n in w.subscriptions && RunsSeparate(w, a)
    requires SeparateAction(w, x) && NameOf(x) != Some(n) && Twin(w, n, a, b)
    ensures Twin(w, n, Do(a, x), b)
  {
    if x.Call? && x.name in a.runs {
      var Run(s, pc) := a.runs[x.name];
      StepStaysInside(w, s, pc, a.az, x.outcome, n);
      StepKeepsOutside(w, s, pc, a.az, x.outcome);
    }
  }

  lemma {:induction false} TwinOfOwn(w: World, n: string, a: System, b: System, actions: seq<Action>)
    requires w.BaseApart() && n in w.subscriptions && RunsSeparate(w, a) && RunsSeparate(w, b)
    requires AllSeparate(w, actions) && Twin(w, n, a, b)
    ensures Twin(w, n, Exec(a, actions), Exec(b, Own(actions, n)))
    decreases actions
  {
    if actions != [] {
      var x, rest := actions[0], actions[1..];
      DoKeepsSeparate(w, a, x);
      if NameOf(x) == Some(n) {
        DoKeepsSeparate(w, b, x);
        OwnActionKeepsTwin(w, n, a, b, x);
        TwinOfOwn(w, n, Do(a, x), Do(b, x), rest);
        assert ([x] + Own(rest, n))[1..] == Own(rest, n);
      } else {
        OtherActionKeepsTwin(w, n, a, b, x);
        TwinOfOwn(w, n, Do(a, x), b, rest);
        assert [] + Own(rest, n) == Own(rest, n);
      }
    }
  }

  /** In any schedule a cluster ends up, run and resources, as if its own actions had been alone. */
  lemma AsIfAlone(w: World, sys: System, actions: seq<Action>, n: string)
    requires w.BaseApart() && RunsSeparate(w, sys) && AllSeparate(w, actions)
    requires n in w.subscriptions
    ensures Twin(w, n, Exec(sys, actions), Exec(sys, Own(actions, n)))
  {
    TwinOfOwn(w, n, sys, sys, actions);
  }

  lemma {:induction false} ExecKeepsSeparate(w: World, sys: System, actions: seq<Action>)
    requires RunsSeparate(w, sys) && AllSeparate(w, actions)
    ensures RunsSeparate(w, Exec(sys, actions))
    decreases actions
  {
    if actions != [] {
      DoKeepsSeparate(w, sys, actions[0]);
      ExecKeepsSeparate(w, Do(sys, actions[0]), actions[1..]);
    }
  }

  /** The cluster parts and the outside make up the whole state. */
  lemma TwinsEverywhereAreEqual(w: World, a: System, b: System)
    requires w.BaseApart() && RunsSeparate(w, a) && RunsSeparate(w, b)
    requires Outside(w, a.az) == Outside(w, b.az)
    requires forall n | n in w.subscriptions :: Twin(w, n, a, b)
    ensures a == b
  {
    forall g: GroupId ensures (g in a.az.groups <==> g in b.az.groups) && (g in a.az.groups ==> a.az.groups[g] == b.az.groups[g]) {
      if w.Managed(g) {
        assert Twin(w, g.name, a, b);
        AgreeFacts(w, g.name, a.az, b.az);
        assert g == w.GroupOf(g.name);
      } else {
        assert g in a.az.groups <==> g in Outside(w, a.az).groups;
        assert g in b.az.groups <==> g in Outside(w, b.az).groups;
      }
    }
    assert a.az.groups == b.az.groups;
    forall z: ZoneId ensures (z in a.az.zones <==> z in b.az.zones) && (z in a.az.zones ==> a.az.zones[z] == b.az.zones[z]) {
      if w.Owned(z.group) && z != w.BaseZone() {
        assert Twin(w, z.group.name, a, b);
        AgreeFacts(w, z.group.name, a.az, b.az);
        assert z.group == w.GroupOf(z.group.name);
      } else {
        assert z in a.az.zones <==> z in Outside(w, a.az).zones;
        assert z in b.az.zones <==> z in Outside(w, b.az).zones;
        if z in a.az.zones && z == w.BaseZone() { SameBaseRecords(w, a, b); }
      }
    }
    assert a.az.zones == b.az.zones;
    forall n ensures (n in a.runs <==> n in b.runs) && (n in a.runs ==> a.runs[n] == b.runs[n]) {
      if n in w.subscriptions { assert Twin(w, n, a, b); }
    }
    assert a.runs == b.runs;
  }

  lemma SameBaseRecords(w: World, a: System, b: System)
    requires w.BaseApart() && Outside(w, a.az) == Outside(w, b.az)
    requires forall n | n in w.subscriptions :: Twin(w, n, a, b)
    requires w.BaseZone() in a.az.zones && w.BaseZone() in b.az.zones
    ensures a.az.zones[w.BaseZone()] == b.az.zones[w.BaseZone()]
  {
    var base := w.BaseZone();
    var ra, rb := a.az.zones[base].records, b.az.zones[base].records;
    assert Outside(w, a.az).zones[base] == Outside(w, b.az).zones[base];
    forall k ensures At(ra, k) == At(rb, k) {
      if k.rtype.NS? && k.name in w.subscriptions {
        assert Twin(w, k.name, a, b);
        assert k == RecordKey(NS, k.name);
        assert At(ra, k) == ViewOf(w, k.name, a.az).ns;
      } else {
        assert k in ra <==> k in WithoutNs(w, ra);
        assert k in rb <==> k in WithoutNs(w, rb);
      }
    }
    RecordsEqual(ra, rb);
  }

  lemma {:induction false} ExecKeepsOutside(w: World, sys: System, actions: seq<Action>)
    requires w.BaseApart() && RunsSeparate(w, sys) && AllSeparate(w, actions)
    ensures Outside(w, Exec(sys, actions).az) == Outside(w, sys.az)
    decreases actions
  {
    if actions != [] {
      var a := actions[0];
      DoKeepsSeparate(w, sys, a);
      if a.Call? && a.name in sys.runs {
        StepKeepsOutside(w, sys.runs[a.name].scope, sys.runs[a.name].pc, sys.az, a.outcome);
      }
      ExecKeepsOutside(w, Do(sys, a), actions[1..]);
    }
  }

  /** Schedules that agree cluster by cluster lead to the same state, however they interleave. */
  lemma SchedulesCommute(w: World, sys: System, p: seq<Action>, q: seq<Action>)
    requires w.BaseApart() && RunsSeparate(w, sys)
    requires AllSeparate(w, p) && AllSeparate(w, q)
    requires forall n | n in w.subscriptions :: Own(p, n) == Own(q, n)
    ensures Exec(sys, p) == Exec(sys, q)
  {
    var a, b := Exec(sys, p), Exec(sys, q);
    ExecKeepsOutside(w, sys, p);
    ExecKeepsOutside(w, sys, q);
    ExecKeepsSeparate(w, sys, p);
    ExecKeepsSeparate(w, sys, q);
    forall n | n in w.subscriptions ensures Twin(w, n, a, b) {
      AsIfAlone(w, sys, p, n);
      AsIfAlone(w, sys, q, n);
    }
    TwinsEverywhereAreEqual(w, a, b);
  }

  /** The actions cluster by cluster, in the order of `names`. */
  function Serial(actions: seq<Action>, names: seq<string>): seq<Action> {
    if names == [] then [] else Own(actions, names[0]) + Serial(actions, names[1..])
  }

  lemma {:induction false} OwnOfConcat(p: seq<Action>, q: seq<Action>, n: string)
    ensures Own(p + q, n) == Own(p, n) + Own(q, n)
  {
    if p == [] {
      assert p + q == q;
    } else {
      OwnOfConcat(p[1..], q, n);
      assert (p + q)[0] == p[0] && (p + q)[1..] == p[1..] + q;
      var head := if NameOf(p[0]) == Some(n) then [p[0]] else [];
      assert head + (Own(p[1..], n) + Own(q, n)) == (head + Own(p[1..], n)) + Own(q, n);
    }
  }

  lemma {:induction false} OwnOfOwn(actions: seq<Action>, m: string, n: string)
    ensures Own(Own(actions, m), n) == if m == n then Own(actions, n) else []
    ensures forall a | a in Own(actions, m) :: a in actions
  {
    if actions != [] {
      var rest := Own(actions[1..], m);
      OwnOfOwn(actions[1..], m, n);
      assert actions == [actions[0]] + actions[1..];
      if NameOf(actions[0]) == Some(m) {
        assert ([actions[0]] + rest)[0] == actions[0] && ([actions[0]] + rest)[1..] == rest;
        assert m != n ==> [] + Own(rest, n) == [];
      } else {
        assert [] + rest == rest;
        assert m == n ==> [] + Own(actions[1..], n) == Own(actions[1..], n);
      }
    }
  }

  lemma {:induction false} OwnOfSerial(actions: seq<Action>, names: seq<string>, n: string)
    requires forall i, j | 0 <= i < j < |names| :: names[i] != names[j]
    ensures Own(Serial(actions, names), n) == if n in names then Own(actions, n) else []
    ensures forall a | a in Serial(actions, names) :: a in actions
  {
    if names != [] {
      OwnOfSerial(actions, names[1..], n);
      OwnOfOwn(actions, names[0], n);
      OwnOfConcat(Own(actions, names[0]), Serial(actions, names[1..]), n);
      assert names == [names[0]] + names[1..];
    }
  }

  /** Non-interference: every interleaving leaves exactly the state of the serial schedule. */
  lemma InterleavingIsSerial(w: World, sys: System, actions: seq<Action>, names: seq<string>)
    requires w.BaseApart() && RunsSeparate(w, sys) && AllSeparate(w, actions)
    requires forall i, j | 0 <= i < j < |names| :: names[i] != names[j]
    requires forall n :: n in names <==> n in w.subscriptions
    ensures Exec(sys, actions) == Exec(sys, Serial(actions, names))
  {
    forall n ensures Own(Serial(actions, names), n) == (if n in names then Own(actions, n) else []) {
      OwnOfSerial(actions, names, n);
    }
    OwnOfSerial(actions, names, "");
    SchedulesCommute(w, sys, actions, Serial(actions, names));
  }
}
