/** How much runs write: bounded repair, and the steady state. */
module Work {
  import opened AzureModel
  import opened DesiredRecords
  import opened PublicRun
  import opened RecordDiff
  import opened Clusters
  import opened Isolation
  import opened Convergence

  // ----- a single run -----

  /** One uninterrupted run that succeeds converges, from any start. */
  lemma SuccessfulRunConverges(s: Scope, az0: Azure, outcomes: seq<Outcome>)
    requires Sane(s) && CleanStart(s, az0) && Steps(s, Begin(s, false), az0, outcomes).0 == Stopped(true)
    ensures Converged(s, az0, Steps(s, Begin(s, false), az0, outcomes).1)
  {
    var n := s.name;
    var begun := Do(System(az0, map[]), Start(s, false));
    var actions := [Start(s, false)] + Calls(n, outcomes);
    assert actions[0] == Start(s, false) && actions[1..] == Calls(n, outcomes);
    RunIsHistory(begun, n, outcomes);
    AloneConverges(s, az0, actions);
    assert Exec(System(az0, map[]), actions) == Exec(begun, actions[1..]);
  }

  /** What a converged zone answers: the wildcard's target, and the API server's address for clusters that publish it. */
  lemma ConvergedZoneServes(s: Scope, az0: Azure, az: Azure)
    requires Sane(s) && Converged(s, az0, az)
    ensures var records := ZoneOf(s, az).records;
            var target := if s.wildcardTarget == "" then "ingress" else s.wildcardTarget;
            && At(records, RecordKey(CNAME, "*")) == Some(Payload(300, [], Some(target + "." + (s.name + "." + s.baseDomain)), []))
            && (!s.kind.AzureASOManagedCluster? ==>
                  && s.address.Some?
                  && At(records, RecordKey(A, "api")) == Some(Payload(300, [s.address.value], None, []))
                  && At(records, RecordKey(A, "apiserver")) == Some(Payload(300, [s.address.value], None, [])))
  {
    assert s.DesiredCname()[0] in Goals(s);
    if !s.kind.AzureASOManagedCluster? {
      var desired := s.DesiredA().value;
      assert desired[0] == ARecord("api", s.address.value) && desired[0] in Goals(s);
      assert desired[1] == ARecord("apiserver", s.address.value) && desired[1] in Goals(s);
    }
  }

  // ----- bounded repair work -----

  function RecordsOf(s: Scope, az: Azure): Records {
    if HasZone(s, az) then ZoneOf(s, az).records else map[]
  }

  /** The desired A sets that are wrong or absent. */
  function Wrong(s: Scope, az: Azure): nat
    requires s.DesiredA().Some?
  {
    Disagree(s.DesiredA().value, RecordsOf(s, az))
  }

  predicate WritesAnASet(sys: System, a: Action, n: string) {
    && a.Call? && a.name == n && n in sys.runs && a.outcome.reply.Done?
    && var Run(s, pc) := sys.runs[a.name];
    && pc.WriteSets? && pc.pending != [] && pc.pending[0].key.rtype.A? && HasZone(s, sys.az)
  }

  /** Successful A-set writes of cluster `n` in a history. */
  function AWrites(sys: System, actions: seq<Action>, n: string): nat
    decreases actions
  {
    if actions == [] then 0
    else (if WritesAnASet(sys, actions[0], n) then 1 else 0) + AWrites(Do(sys, actions[0]), actions[1..], n)
  }

  /** Every listing of the history puts the desired sets' own type first. */
  predicate ListingsLead(s: Scope, actions: seq<Action>)
    requires s.DesiredA().Some?
  {
    forall a | a in actions && a.Call? :: AllLead(a.outcome.listing, s.DesiredA().value)
  }

  /** Everything scheduled is wrong, and scheduled once. */
  ghost predicate Scheduled(s: Scope, az: Azure, pending: seq<RecordSet>)
    requires s.DesiredA().Some?
  {
    && DistinctKeys(pending)
    && forall d | d in pending && d.key.rtype.A? :: d in s.DesiredA().value && !Holds(RecordsOf(s, az), d)
  }

  ghost predicate Frugal(s: Scope, az: Azure, pc: Pc)
    requires s.DesiredA().Some?
  {
    match pc
    case GetZone(listing) => HasZone(s, az) && Scheduled(s, az, Pending(s, listing))
    case ListBase(listing, _) => HasZone(s, az) && Scheduled(s, az, Pending(s, listing))
    case WriteNs(listing, _) => HasZone(s, az) && Scheduled(s, az, Pending(s, listing))
    case WriteSets(pending) => HasZone(s, az) && Scheduled(s, az, pending)
    case CreateZone => !HasZone(s, az)
    case DeleteNs => false
    case DeleteGroup => false
    case _ => true
  }

  function Pending(s: Scope, listing: seq<RecordSet>): seq<RecordSet>
    requires s.DesiredA().Some?
  {
    Missing(s.DesiredA().value, listing) + Missing(s.DesiredCname(), listing)
  }

  lemma PendingIsMissing(s: Scope, listing: seq<RecordSet>)
    requires s.DesiredA().Some?
    ensures Pending(s, listing) == Missing(Goals(s), listing)
  {
    MissingConcat(s.DesiredA().value, s.DesiredCname(), listing);
  }

  lemma {:induction false} MissingIsDistinct(desired: seq<RecordSet>, listing: seq<RecordSet>)
    requires DistinctKeys(desired)
    ensures DistinctKeys(Missing(desired, listing))
  {
    if desired != [] {
      var rest := desired[1..];
      MissingIsDistinct(rest, listing);
      MissingIsFilter(rest, listing);
      forall d | d in Missing(rest, listing) ensures d.key != desired[0].key {
        var j :| 0 <= j < |rest| && rest[j] == d;
        assert desired[j + 1] == d;
      }
    }
  }

  lemma ListingSchedulesWrongOnly(s: Scope, az: Azure, listing: seq<RecordSet>)
    requires s.DesiredA().Some? && DistinctKeys(s.DesiredA().value) && WellTyped(RecordsOf(s, az))
    requires (IsListing(RecordsOf(s, az), listing) && AllLead(listing, s.DesiredA().value))
          || (listing == [] && forall d | d in s.DesiredA().value :: !Holds(RecordsOf(s, az), d))
    ensures Scheduled(s, az, Pending(s, listing))
  {
    var desired := s.DesiredA().value;
    GoalsAreDesirable(s);
    MissingIsDistinct(desired, listing);
    MissingIsFilter(desired, listing);
    MissingIsFilter(s.DesiredCname(), listing);
    forall d | d in Pending(s, listing) && d.key.rtype.A?
      ensures d in desired && !Holds(RecordsOf(s, az), d)
    {
      if listing != [] || IsListing(RecordsOf(s, az), listing) {
        assert d in Goals(s);
        if IsListing(RecordsOf(s, az), listing) && AllLead(listing, desired) {
          NameOnlyLookupIsSound(RecordsOf(s, az), listing, d);
        }
      }
    }
    forall i, j | 0 <= i < j < |Pending(s, listing)|
      ensures Pending(s, listing)[i].key != Pending(s, listing)[j].key
    {
      var m, c := Missing(desired, listing), Missing(s.DesiredCname(), listing);
      if i < |m| <= j { assert m[i] in desired && c[j - |m|] in c; }
    }
  }

  lemma WriteLowersWrong(s: Scope, az: Azure, pending: seq<RecordSet>)
    requires s.DesiredA().Some? && DistinctKeys(s.DesiredA().value) && HasZone(s, az)
    requires pending != [] && Scheduled(s, az, pending)
    ensures var d := pending[0]; var after := PutRecord(az, s.ClusterZone(), d);
            && Wrong(s, after) == Wrong(s, az) - (if d.key.rtype.A? then 1 else 0)
            && Scheduled(s, after, pending[1..])
  {
    var d := pending[0];
    var after := PutRecord(az, s.ClusterZone(), d);
    GoalsAreDesirable(s);
    if d.key.rtype.A? {
      WriteRepairsOne(s.DesiredA().value, RecordsOf(s, az), d);
    } else {
      DisagreeUntouched(s.DesiredA().value, RecordsOf(s, az), d);
    }
    forall e | e in pending[1..] ensures e.key != d.key {
      var j :| 0 <= j < |pending[1..]| && pending[1..][j] == e;
      assert pending[j + 1] == e;
    }
  }

  lemma {:induction false} NewZoneIsAllWrong(desired: seq<RecordSet>, servers: seq<string>)
    requires forall d | d in desired :: d.key.rtype.A?
    ensures Disagree(desired, ApexRecords(servers)) == Disagree(desired, map[])
  {
    if desired != [] { NewZoneIsAllWrong(desired[1..], servers); }
  }

  lemma ListingIsFrugal(s: Scope, az: Azure, pc: Pc, o: Outcome)
    requires s.DesiredA().Some? && DistinctKeys(s.DesiredA().value) && WellTyped(RecordsOf(s, az))
    requires Frugal(s, az, pc) && AllLead(o.listing, s.DesiredA().value) && (pc.ListZone? || pc.CreateZone?)
    ensures Frugal(s, Effect(s, pc, az, o), Next(s, pc, az, o))
    ensures Wrong(s, Effect(s, pc, az, o)) == Wrong(s, az)
  {
    GoalsAreDesirable(s);
    var after := Effect(s, pc, az, o);
    if pc.CreateZone? {
      NewZoneIsAllWrong(s.DesiredA().value, o.servers);
      if o.reply.Done? && HasZone(s, after) { ListingSchedulesWrongOnly(s, after, []); }
    } else if HasZone(s, az) && IsListing(RecordsOf(s, az), o.listing) {
      ListingSchedulesWrongOnly(s, az, o.listing);
    }
  }

  /** The A-set write a step amounts to, if it takes effect. */
  function ASetsAt(pc: Pc): nat {
    if pc.WriteSets? && pc.pending != [] && pc.pending[0].key.rtype.A? then 1 else 0
  }

  lemma StepIsFrugal(s: Scope, az: Azure, pc: Pc, o: Outcome)
    requires s.DesiredA().Some? && DistinctKeys(s.DesiredA().value) && WellTyped(RecordsOf(s, az))
    requires Frugal(s, az, pc) && AllLead(o.listing, s.DesiredA().value)
    ensures Frugal(s, Effect(s, pc, az, o), Next(s, pc, az, o))
    ensures Wrong(s, Effect(s, pc, az, o)) == Wrong(s, az) - (if o.reply.Failed? then 0 else ASetsAt(pc))
  {
    assert |s.ClusterDomain()| > |s.baseDomain|;
    if pc.CreateZone? || pc.ListZone? {
      ListingIsFrugal(s, az, pc, o);
    } else if pc.WriteSets? && pc.pending != [] {
      WriteLowersWrong(s, az, pc.pending);
    } else {
      assert RecordsOf(s, Effect(s, pc, az, o)) == RecordsOf(s, az);
    }
  }

  ghost predicate FrugalSystem(s: Scope, az0: Azure, sys: System)
    requires Sane(s)
  {
    Underway(s, az0, sys) && (s.name in sys.runs ==> Frugal(s, sys.az, sys.runs[s.name].pc))
  }

  lemma ActionIsFrugal(s: Scope, az0: Azure, sys: System, a: Action)
    requires Sane(s) && DistinctKeys(s.DesiredA().value) && Repeats(s, [a]) && ListingsLead(s, [a])
    requires FrugalSystem(s, az0, sys)
    ensures FrugalSystem(s, az0, Do(sys, a))
    ensures var n := (if WritesAnASet(sys, a, s.name) then 1 else 0) + Wrong(s, Do(sys, a).az);
            n <= Wrong(s, sys.az) && (!(a.Call? && a.outcome.reply.FailedAfterEffect?) ==> n == Wrong(s, sys.az))
  {
    assert a in [a];
    HistoryStaysUnderway(s, az0, sys, [a]);
    assert [a][1..] == [] && Exec(sys, [a]) == Do(sys, a);
    if a.Call? && s.name in sys.runs {
      StepIsFrugal(s, sys.az, sys.runs[s.name].pc, a.outcome);
    }
  }

  lemma {:induction false} RepairIsBounded(s: Scope, az0: Azure, sys: System, actions: seq<Action>)
    requires Sane(s) && DistinctKeys(s.DesiredA().value) && Repeats(s, actions) && ListingsLead(s, actions)
    requires FrugalSystem(s, az0, sys)
    ensures AWrites(sys, actions, s.name) + Wrong(s, Exec(sys, actions).az) <= Wrong(s, sys.az)
    ensures NoAmbiguousFailure(actions) ==>
              AWrites(sys, actions, s.name) + Wrong(s, Exec(sys, actions).az) == Wrong(s, sys.az)
    decreases actions
  {
    if actions != [] {
      ActionIsFrugal(s, az0, sys, actions[0]);
      RepairIsBounded(s, az0, Do(sys, actions[0]), actions[1..]);
    }
  }

  predicate NoAmbiguousFailure(actions: seq<Action>) {
    forall a | a in actions && a.Call? :: !a.outcome.reply.FailedAfterEffect?
  }

  /** Whatever the other clusters do, a cluster's A-set writes are those of its own actions alone. */
  lemma {:induction false} AWritesAlone(w: World, a: System, b: System, actions: seq<Action>, n: string)
    requires w.BaseApart() && n in w.subscriptions && RunsSeparate(w, a) && RunsSeparate(w, b)
    requires AllSeparate(w, actions) && Twin(w, n, a, b)
    ensures AWrites(a, actions, n) == AWrites(b, Own(actions, n), n)
    decreases actions
  {
    if actions != [] {
      var x, rest := actions[0], actions[1..];
      DoKeepsSeparate(w, a, x);
      if NameOf(x) == Some(n) {
        DoKeepsSeparate(w, b, x);
        OwnActionKeepsTwin(w, n, a, b, x);
        AWritesAlone(w, Do(a, x), Do(b, x), rest, n);
        AgreeFacts(w, n, a.az, b.az);
        assert ([x] + Own(rest, n))[1..] == Own(rest, n);
      } else {
        OtherActionKeepsTwin(w, n, a, b, x);
        AWritesAlone(w, Do(a, x), b, rest, n);
        assert [] + Own(rest, n) == Own(rest, n);
      }
    }
  }

  /**
   Among any other clusters' runs: the successful A-set writes of any sequence of interrupted runs
   of `s`, plus what is still wrong at its end, are at most what was wrong at its start, and
   exactly that if failed calls have no effect.
   */
  lemma TotalWorkIsBounded(w: World, s: Scope, az0: Azure, actions: seq<Action>)
    requires w.BaseApart() && Separate(w, s) && Sane(s) && DistinctKeys(s.DesiredA().value) && CleanStart(s, az0)
    requires AllSeparate(w, actions) && Repeats(s, Own(actions, s.name)) && ListingsLead(s, Own(actions, s.name))
    ensures var sys := System(az0, map[]); var n := AWrites(sys, actions, s.name) + Wrong(s, Exec(sys, actions).az);
            n <= Wrong(s, az0) && (NoAmbiguousFailure(Own(actions, s.name)) ==> n == Wrong(s, az0))
  {
    var sys, own := System(az0, map[]), Own(actions, s.name);
    RepairIsBounded(s, az0, sys, own);
    AWritesAlone(w, sys, sys, actions, s.name);
    SameRecords(w, s, az0, actions);
  }

  /** The cluster's records are those its own actions alone would have given. */
  lemma SameRecords(w: World, s: Scope, az0: Azure, actions: seq<Action>)
    requires w.BaseApart() && Separate(w, s) && AllSeparate(w, actions)
    ensures var sys := System(az0, map[]);
            && (HasZone(s, Exec(sys, actions).az) <==> HasZone(s, Exec(sys, Own(actions, s.name)).az))
            && RecordsOf(s, Exec(sys, actions).az) == RecordsOf(s, Exec(sys, Own(actions, s.name)).az)
  {
    var sys := System(az0, map[]);
    AsIfAlone(w, sys, actions, s.name);
    AgreeFacts(w, s.name, Exec(sys, actions).az, Exec(sys, Own(actions, s.name)).az);
  }

  /** Among any other clusters' runs, in every prefix, a record set that is not desired is as it was at the start. */
  lemma OthersRecordsUntouchedAmongOthers(w: World, s: Scope, az0: Azure, actions: seq<Action>, k: RecordKey)
    requires w.BaseApart() && Separate(w, s) && Sane(s) && CleanStart(s, az0) && HasZone(s, az0)
    requires AllSeparate(w, actions) && Repeats(s, Own(actions, s.name))
    requires forall d | d in Goals(s) :: d.key != k
    ensures var az := Exec(System(az0, map[]), actions).az;
            HasZone(s, az) && At(ZoneOf(s, az).records, k) == At(ZoneOf(s, az0).records, k)
  {
    OthersRecordsUntouched(s, az0, Own(actions, s.name), k);
    SameRecords(w, s, az0, actions);
  }

  // ----- the steady state -----

  predicate Settled(s: Scope, az: Azure)
    requires Sane(s)
  {
    && (s.kind.AzureCluster? || (s.ResourceGroup() in az.groups && TagsOf(s, az) == s.tags))
    && NsRight(s, az) && WellTyped(ZoneOf(s, az).records) && AllHold(ZoneOf(s, az).records, Goals(s))
  }

  /** Where a run over a settled state can be. */
  ghost predicate Idle(s: Scope, az: Azure, pc: Pc)
    requires Sane(s) && Settled(s, az)
  {
    match pc
    case GetGroup => !s.kind.AzureCluster?
    case ListZone => true
    case GetZone(listing) => true
    case ListBase(_, servers) => servers == ZoneOf(s, az).servers
    case WriteNs(_, servers) => servers == ZoneOf(s, az).servers
    case WriteSets(pending) => pending != [] && forall d | d in pending :: d in Goals(s)
    case Stopped(_) => true
    case _ => false
  }

  lemma GoalRewriteIsNoChange(s: Scope, az: Azure, d: RecordSet)
    requires Sane(s) && Settled(s, az) && d in Goals(s)
    ensures PutRecord(az, s.ClusterZone(), d) == az
  {
    var zone := ZoneOf(s, az);
    assert zone.records[d.key := d.props] == zone.records;
    assert az.zones[s.ClusterZone() := zone] == az.zones;
  }

  lemma NsRewriteIsNoChange(s: Scope, az: Azure)
    requires Sane(s) && Settled(s, az)
    ensures PutRecord(az, s.BaseZone(), NsSet(s, ZoneOf(s, az).servers)) == az
  {
    var base, ns := az.zones[s.BaseZone()], NsSet(s, ZoneOf(s, az).servers);
    assert base.records[ns.key := ns.props] == base.records;
    assert az.zones[s.BaseZone() := base] == az.zones;
  }

  lemma IdleStep(s: Scope, az: Azure, pc: Pc, o: Outcome)
    requires Sane(s) && Settled(s, az) && Idle(s, az, pc)
    ensures Effect(s, pc, az, o) == az && Idle(s, az, Next(s, pc, az, o))
  {
    if pc.WriteSets? {
      if pc.pending != [] { GoalRewriteIsNoChange(s, az, pc.pending[0]); }
    } else if pc.WriteNs? {
      NsRewriteIsNoChange(s, az);
      DiffIsMissing(s, pc.listing);
    }
  }

  /** No later run, complete or cut short, changes a settled state. */
  lemma {:induction false} SettledStateStays(s: Scope, pc: Pc, az: Azure, outcomes: seq<Outcome>)
    requires Sane(s) && Settled(s, az) && Idle(s, az, pc)
    ensures Steps(s, pc, az, outcomes).1 == az
    decreases outcomes
  {
    if outcomes != [] {
      IdleStep(s, az, pc, outcomes[0]);
      SettledStateStays(s, Next(s, pc, az, outcomes[0]), az, outcomes[1..]);
    }
  }

  /** The record writes still to come, one per pending set. */
  function WriteSetsOf(pending: seq<RecordSet>): seq<Pc> {
    if pending == [] then [] else [WriteSets(pending)] + WriteSetsOf(pending[1..])
  }

  /** The mutating calls a run over a settled state makes from `pc` to its success. */
  function Expected(s: Scope, az: Azure, pc: Pc): seq<Pc>
    requires Sane(s) && Settled(s, az)
  {
    match pc
    case GetZone(listing) => [WriteNs(listing, ZoneOf(s, az).servers)] + WriteSetsOf(Pending(s, listing))
    case ListBase(listing, _) => [WriteNs(listing, ZoneOf(s, az).servers)] + WriteSetsOf(Pending(s, listing))
    case WriteNs(listing, _) => [WriteNs(listing, ZoneOf(s, az).servers)] + WriteSetsOf(Pending(s, listing))
    case WriteSets(pending) => WriteSetsOf(pending)
    case _ => []
  }

  lemma ExpectedStep(s: Scope, az: Azure, pc: Pc, o: Outcome)
    requires Sane(s) && Settled(s, az) && Idle(s, az, pc) && !pc.GetGroup? && !pc.ListZone? && o.reply.Done?
    ensures Expected(s, az, pc) == (if IsWrite(pc) then [pc] else []) + Expected(s, az, Next(s, pc, az, o))
  {
    var next := Expected(s, az, Next(s, pc, az, o));
    assert [] + next == next;
    if pc.WriteNs? {
      assert Next(s, pc, az, o) == WriteRest(Pending(s, pc.listing));
      assert next == WriteSetsOf(Pending(s, pc.listing));
    } else if pc.WriteSets? {
      assert next == WriteSetsOf(pc.pending[1..]);
    }
  }

  lemma {:induction false} WritesAfterListing(s: Scope, pc: Pc, az: Azure, outcomes: seq<Outcome>)
    requires Sane(s) && Settled(s, az) && Idle(s, az, pc) && !pc.GetGroup? && !pc.ListZone?
    ensures Writes(s, pc, az, outcomes) <= Expected(s, az, pc)
    ensures Steps(s, pc, az, outcomes).0 == Stopped(true) ==> Writes(s, pc, az, outcomes) == Expected(s, az, pc)
    decreases outcomes
  {
    if outcomes != [] {
      var o := outcomes[0];
      var pc' := Next(s, pc, az, o);
      IdleStep(s, az, pc, o);
      WritesAfterListing(s, pc', az, outcomes[1..]);
      StoppedStays(s, pc', az, outcomes[1..]);
      if o.reply.Done? { ExpectedStep(s, az, pc, o); }
    }
  }

  lemma {:induction false} WritesOfSettledRun(s: Scope, pc: Pc, az: Azure, outcomes: seq<Outcome>)
    requires Sane(s) && Settled(s, az) && Idle(s, az, pc) && (pc.GetGroup? || pc.ListZone?)
    ensures var listing := Seen(s, pc, az, outcomes); var writes := Writes(s, pc, az, outcomes);
            && (writes == [] || IsListing(ZoneOf(s, az).records, listing))
            && writes <= Expected(s, az, GetZone(listing))
            && (Steps(s, pc, az, outcomes).0 == Stopped(true) ==> writes == Expected(s, az, GetZone(listing)))
    decreases outcomes
  {
    if outcomes != [] {
      var o := outcomes[0];
      var pc' := Next(s, pc, az, o);
      IdleStep(s, az, pc, o);
      StoppedStays(s, pc', az, outcomes[1..]);
      if pc'.GetZone? || pc'.Stopped? {
        WritesAfterListing(s, pc', az, outcomes[1..]);
      } else {
        WritesOfSettledRun(s, pc', az, outcomes[1..]);
      }
    }
  }

  /**
   The mutating calls of a run over a settled state, for every listing: the NS set, unchanged, and
   then exactly the desired sets whose name a set of another type leads; a run that is cut makes a prefix of them.
   */
  lemma SettledRunWrites(s: Scope, az: Azure, outcomes: seq<Outcome>)
    requires Sane(s) && Settled(s, az)
    ensures var pc := Begin(s, false);
            var listing := Seen(s, pc, az, outcomes);
            var calls := [WriteNs(listing, ZoneOf(s, az).servers)] + WriteSetsOf(NotLeading(Goals(s), listing));
            && Writes(s, pc, az, outcomes) <= calls
            && (Steps(s, pc, az, outcomes).0 == Stopped(true) ==> Writes(s, pc, az, outcomes) == calls)
            && (AllLead(listing, Goals(s)) ==> |Writes(s, pc, az, outcomes)| <= 1)
  {
    var listing := Seen(s, Begin(s, false), az, outcomes);
    WritesOfSettledRun(s, Begin(s, false), az, outcomes);
    if IsListing(ZoneOf(s, az).records, listing) {
      GoalsAreDesirable(s);
      PendingIsMissing(s, listing);
      OnlyNotLeadingMissing(ZoneOf(s, az).records, listing, Goals(s));
    }
  }

  /** The group is written again in every later run unless every initial tag key is a desired one. */
  lemma GroupWritesStopIff(s: Scope, az0: Azure, az: Azure, o: Outcome)
    requires Sane(s) && Converged(s, az0, az) && !s.kind.AzureCluster? && o.reply.Done?
    ensures Next(s, GetGroup, az, o) == ListZone <==> TagsOf(s, az0).Keys <= s.tags.Keys
  {}

  /** A converged state with the desired tags is settled. */
  lemma ConvergedIsSettled(s: Scope, az0: Azure, actions: seq<Action>)
    requires Sane(s) && CleanStart(s, az0) && Repeats(s, actions)
    requires var sys := Exec(System(az0, map[]), actions);
             s.name in sys.runs && sys.runs[s.name].pc == Stopped(true)
    requires s.kind.AzureCluster? || TagsOf(s, az0).Keys <= s.tags.Keys
    ensures Settled(s, Exec(System(az0, map[]), actions).az)
  {
    AloneConverges(s, az0, actions);
    assert TagsOf(s, az0).Keys <= s.tags.Keys ==> TagsOf(s, az0) + s.tags == s.tags;
  }
}
