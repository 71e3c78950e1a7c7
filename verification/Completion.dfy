/** A run whose calls all succeed gets to its end, within a bounded number of calls (azure/services/dns/dns.go). */
module Completion {
  import opened AzureModel
  import opened DesiredRecords
  import opened PublicRun
  import opened RecordDiff
  import opened Convergence
  import opened Work

  /** The group exists, or its location is known: configured, or the management cluster's. */
  predicate LocationKnown(s: Scope, az: Azure) {
    || s.ResourceGroup() in az.groups
    || (!s.kind.AzureCluster? &&
          (s.location != "" || (s.managementGroup.Some? && GroupId(s.subscription, s.managementGroup.value) in az.groups)))
  }

  /** What the calls still to come need to find. */
  predicate Ready(s: Scope, az: Azure, pc: Pc) {
    && s.DesiredA().Some? && s.BaseZone() in az.zones
    && match pc
       case GetGroup => !s.kind.AzureCluster? && LocationKnown(s, az)
       case GetManagementGroup =>
         s.managementGroup.Some? && GroupId(s.subscription, s.managementGroup.value) in az.groups
       case WriteGroup(_) => true
       case ListZone => s.ResourceGroup() in az.groups
       case CreateZone => s.ResourceGroup() in az.groups
       case GetZone(_) => HasZone(s, az)
       case ListBase(_, _) => HasZone(s, az)
       case WriteNs(_, _) => HasZone(s, az)
       case WriteSets(pending) => HasZone(s, az) && pending != []
       case Stopped(ok) => ok
       case _ => false
  }

  /** An upper bound on the calls from `pc` to the end of a run. */
  function CallsLeft(s: Scope, pc: Pc): nat {
    var sets := if s.DesiredA().Some? then |Goals(s)| else 0;
    match pc
    case GetGroup => 8 + sets
    case GetManagementGroup => 7 + sets
    case WriteGroup(_) => 6 + sets
    case ListZone => 5 + sets
    case CreateZone => 4 + sets
    case GetZone(_) => 3 + sets
    case ListBase(_, _) => 2 + sets
    case WriteNs(_, _) => 1 + sets
    case WriteSets(pending) => |pending|
    case _ => 0
  }

  /** The listing of the cluster zone, where one is asked for, is a true one. */
  predicate TrueListing(s: Scope, az: Azure, pc: Pc, o: Outcome) {
    pc.ListZone? && HasZone(s, az) ==> IsListing(ZoneOf(s, az).records, o.listing)
  }

  /** All calls are answered, and truly. */
  ghost predicate AllAnswered(s: Scope, pc: Pc, az: Azure, outcomes: seq<Outcome>)
    decreases outcomes
  {
    outcomes != [] ==>
      && outcomes[0].reply.Done? && TrueListing(s, az, pc, outcomes[0])
      && AllAnswered(s, Next(s, pc, az, outcomes[0]), Effect(s, pc, az, outcomes[0]), outcomes[1..])
  }

  lemma AnsweredStep(s: Scope, az: Azure, pc: Pc, o: Outcome)
    requires Ready(s, az, pc) && o.reply.Done? && TrueListing(s, az, pc, o)
    ensures Ready(s, Effect(s, pc, az, o), Next(s, pc, az, o))
    ensures !pc.Stopped? ==> CallsLeft(s, Next(s, pc, az, o)) < CallsLeft(s, pc)
  {
    if pc.WriteNs? {
      PendingIsMissing(s, pc.listing);
      MissingIsFilter(Goals(s), pc.listing);
      assert Next(s, pc, az, o) == WriteRest(Pending(s, pc.listing));
    }
  }

  /** A run whose calls are all answered succeeds within the bound. */
  lemma {:induction false} AnsweredRunSucceeds(s: Scope, pc: Pc, az: Azure, outcomes: seq<Outcome>)
    requires Ready(s, az, pc) && AllAnswered(s, pc, az, outcomes) && |outcomes| >= CallsLeft(s, pc)
    ensures Steps(s, pc, az, outcomes).0 == Stopped(true)
    decreases outcomes
  {
    if pc.Stopped? {
      StoppedStays(s, pc, az, outcomes);
    } else {
      var o := outcomes[0];
      AnsweredStep(s, az, pc, o);
      AnsweredRunSucceeds(s, Next(s, pc, az, o), Effect(s, pc, az, o), outcomes[1..]);
    }
  }

  /**
   Eight calls and one per desired set are enough: with the base zone there and the location known,
   a run whose calls are all answered ends in success, and the cluster has converged.
   */
  lemma AnsweredRunConverges(s: Scope, az0: Azure, outcomes: seq<Outcome>)
    requires Sane(s) && CleanStart(s, az0) && s.BaseZone() in az0.zones && LocationKnown(s, az0)
    requires AllAnswered(s, Begin(s, false), az0, outcomes) && |outcomes| >= 8 + |Goals(s)|
    ensures Steps(s, Begin(s, false), az0, outcomes).0 == Stopped(true)
    ensures Converged(s, az0, Steps(s, Begin(s, false), az0, outcomes).1)
  {
    AnsweredRunSucceeds(s, Begin(s, false), az0, outcomes);
    SuccessfulRunConverges(s, az0, outcomes);
  }

  // ----- exactly when a run succeeds -----

  /** What a reconcile run has found by the time it gets to `pc`. */
  predicate Found(s: Scope, pc: Pc, az: Azure) {
    match pc
    case GetGroup => !s.kind.AzureCluster?
    case GetManagementGroup => s.ResourceGroup() !in az.groups && s.location == "" && !s.kind.AzureCluster?
    case CreateZone => s.ResourceGroup() in az.groups
    case GetZone(_) => s.ResourceGroup() in az.groups
    case ListBase(_, _) => s.ResourceGroup() in az.groups && HasZone(s, az)
    case WriteNs(_, _) => s.ResourceGroup() in az.groups && HasZone(s, az) && s.BaseZone() in az.zones
    case WriteSets(_) => Reached(s, az)
    case Stopped(ok) => ok ==> Reached(s, az)
    case DeleteNs => false
    case DeleteGroup => false
    case _ => true
  }

  predicate Reached(s: Scope, az: Azure) {
    s.DesiredA().Some? && s.ResourceGroup() in az.groups && HasZone(s, az) && s.BaseZone() in az.zones
  }

  lemma {:induction false} StepsFind(s: Scope, pc: Pc, az: Azure, outcomes: seq<Outcome>)
    requires Found(s, pc, az)
    ensures Found(s, Steps(s, pc, az, outcomes).0, Steps(s, pc, az, outcomes).1)
    decreases outcomes
  {
    if outcomes != [] {
      StepsFind(s, Next(s, pc, az, outcomes[0]), Effect(s, pc, az, outcomes[0]), outcomes[1..]);
    }
  }

  /** The calls a run makes before it stops are answered, and truly. */
  ghost predicate AnsweredToTheEnd(s: Scope, pc: Pc, az: Azure, outcomes: seq<Outcome>)
    decreases outcomes
  {
    outcomes != [] && !pc.Stopped? ==>
      && outcomes[0].reply.Done? && TrueListing(s, az, pc, outcomes[0])
      && AnsweredToTheEnd(s, Next(s, pc, az, outcomes[0]), Effect(s, pc, az, outcomes[0]), outcomes[1..])
  }

  lemma ReadyBefore(s: Scope, pc: Pc, az: Azure, o: Outcome)
    requires Found(s, pc, az) && !pc.Stopped? && Ready(s, Effect(s, pc, az, o), Next(s, pc, az, o))
    ensures Ready(s, az, pc) && o.reply.Done? && TrueListing(s, az, pc, o)
  {
    assert |s.ClusterDomain()| > |s.baseDomain|;
  }

  lemma {:induction false} SuccessIff(s: Scope, pc: Pc, az: Azure, outcomes: seq<Outcome>)
    requires Found(s, pc, az) && Steps(s, pc, az, outcomes).0.Stopped?
    ensures Steps(s, pc, az, outcomes).0 == Stopped(true) <==> Ready(s, az, pc) && AnsweredToTheEnd(s, pc, az, outcomes)
    decreases outcomes
  {
    if pc.Stopped? {
      StoppedStays(s, pc, az, outcomes);
    } else if outcomes != [] {
      var o := outcomes[0];
      var pc', az' := Next(s, pc, az, o), Effect(s, pc, az, o);
      if Ready(s, az, pc) && o.reply.Done? && TrueListing(s, az, pc, o) {
        AnsweredStep(s, az, pc, o);
        SuccessIff(s, pc', az', outcomes[1..]);
      } else {
        if Ready(s, az', pc') { ReadyBefore(s, pc, az, o); }
        NotReadyFails(s, pc', az', outcomes[1..]);
      }
    }
  }

  lemma {:induction false} NotReadyFails(s: Scope, pc: Pc, az: Azure, outcomes: seq<Outcome>)
    requires Found(s, pc, az) && !Ready(s, az, pc)
    ensures Steps(s, pc, az, outcomes).0 != Stopped(true)
    decreases outcomes
  {
    if outcomes != [] {
      var o := outcomes[0];
      if !pc.Stopped? && Ready(s, Effect(s, pc, az, o), Next(s, pc, az, o)) { ReadyBefore(s, pc, az, o); }
      NotReadyFails(s, Next(s, pc, az, o), Effect(s, pc, az, o), outcomes[1..]);
    }
  }

  predicate Reconciling(pc: Pc) { !pc.DeleteNs? && !pc.DeleteGroup? && pc != WriteSets([]) }

  lemma EveryStepIsCounted(s: Scope, az: Azure, pc: Pc, o: Outcome)
    requires Reconciling(pc) && !pc.Stopped?
    ensures Reconciling(Next(s, pc, az, o)) && CallsLeft(s, Next(s, pc, az, o)) < CallsLeft(s, pc)
  {
    if pc.WriteNs? && s.DesiredA().Some? {
      PendingIsMissing(s, pc.listing);
      MissingIsFilter(Goals(s), pc.listing);
      assert Diff(s, pc.listing) == WriteRest(Pending(s, pc.listing));
    }
  }

  lemma {:induction false} StepsEnd(s: Scope, pc: Pc, az: Azure, outcomes: seq<Outcome>)
    requires Reconciling(pc) && |outcomes| >= CallsLeft(s, pc)
    ensures Steps(s, pc, az, outcomes).0.Stopped?
    decreases outcomes
  {
    if pc.Stopped? {
      StoppedStays(s, pc, az, outcomes);
    } else {
      EveryStepIsCounted(s, az, pc, outcomes[0]);
      StepsEnd(s, Next(s, pc, az, outcomes[0]), Effect(s, pc, az, outcomes[0]), outcomes[1..]);
    }
  }

  /** Eight calls and one per desired set are enough for every reconcile run to end, whatever they answer. */
  lemma ReconcileRunsEnd(s: Scope, az: Azure, outcomes: seq<Outcome>)
    requires |outcomes| >= 8 + (if s.DesiredA().Some? then |Goals(s)| else 0)
    ensures Steps(s, Begin(s, false), az, outcomes).0.Stopped?
  {
    StepsEnd(s, Begin(s, false), az, outcomes);
  }

  /**
   A run that has ended has succeeded exactly if its desired sets could be determined, the base zone
   existed, the group existed or its location was known, and every call it made was answered.
   */
  lemma RunSucceedsIff(s: Scope, az: Azure, outcomes: seq<Outcome>)
    requires Steps(s, Begin(s, false), az, outcomes).0.Stopped?
    ensures Steps(s, Begin(s, false), az, outcomes).0 == Stopped(true) <==>
              && s.DesiredA().Some? && ZoneId(s.baseGroup, s.baseDomain) in az.zones && LocationKnown(s, az)
              && AnsweredToTheEnd(s, Begin(s, false), az, outcomes)
  {
    SuccessIff(s, Begin(s, false), az, outcomes);
  }

  /** The same of a run fed by an oracle; a success has converged. */
  lemma ReachedSuccessIff(s: Scope, oracle: nat -> Outcome, az: Azure, t: nat, ok: bool, az': Azure, t': nat)
    requires Reaches(s, oracle, Begin(s, false), az, t, Stopped(ok), az', t')
    ensures ok <==>
              && s.DesiredA().Some? && ZoneId(s.baseGroup, s.baseDomain) in az.zones && LocationKnown(s, az)
              && AnsweredToTheEnd(s, Begin(s, false), az, Feed(oracle, t, t'))
    ensures ok && Sane(s) && CleanStart(s, az) ==> Converged(s, az, az')
  {
    RunSucceedsIff(s, az, Feed(oracle, t, t'));
    if ok && Sane(s) && CleanStart(s, az) { SuccessfulRunConverges(s, az, Feed(oracle, t, t')); }
  }

  // ----- such runs exist -----

  /** From every point of every run there are answers of any length. */
  lemma {:induction false} AnswersExist(s: Scope, pc: Pc, az: Azure, n: nat) returns (outcomes: seq<Outcome>)
    ensures |outcomes| == n && AllAnswered(s, pc, az, outcomes)
    decreases n
  {
    if n == 0 {
      outcomes := [];
    } else {
      var listing: seq<RecordSet> := [];
      if HasZone(s, az) { listing := EveryZoneCanBeListed(ZoneOf(s, az).records); }
      var o := Outcome(Done, listing, []);
      var rest := AnswersExist(s, Next(s, pc, az, o), Effect(s, pc, az, o), n - 1);
      outcomes := [o] + rest;
      assert outcomes[0] == o && outcomes[1..] == rest;
    }
  }
}
