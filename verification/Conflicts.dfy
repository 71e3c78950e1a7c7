/** What successive successful runs make of a record whose desired sets disagree (azure/services/dns/arecords.go). */
module Conflicts {
  import opened AzureModel
  import opened DesiredRecords
  import opened PublicRun
  import opened RecordDiff
  import opened Convergence
  import opened Work
  import opened Completion

  /** What a run still has to write, once it has its listing. */
  function Rest(s: Scope, pc: Pc): seq<RecordSet>
    requires s.DesiredA().Some?
  {
    match pc
    case GetZone(listing) => Pending(s, listing)
    case ListBase(listing, _) => Pending(s, listing)
    case WriteNs(listing, _) => Pending(s, listing)
    case WriteSets(pending) => pending
    case _ => []
  }

  lemma {:induction false} SuccessWritesTheRest(s: Scope, pc: Pc, az: Azure, outcomes: seq<Outcome>)
    requires s.DesiredA().Some? && HasZone(s, az) && Steps(s, pc, az, outcomes).0 == Stopped(true)
    requires pc.GetZone? || pc.ListBase? || pc.WriteNs? || pc.WriteSets? || pc.Stopped?
    ensures var after := Steps(s, pc, az, outcomes).1;
            HasZone(s, after) && ZoneOf(s, after).records == Overlay(ZoneOf(s, az).records, Rest(s, pc))
    decreases outcomes
  {
    if outcomes != [] {
      assert |s.ClusterDomain()| > |s.baseDomain|;
      var o := outcomes[0];
      StoppedStays(s, Next(s, pc, az, o), Effect(s, pc, az, o), outcomes[1..]);
      SuccessWritesTheRest(s, Next(s, pc, az, o), Effect(s, pc, az, o), outcomes[1..]);
    }
  }

  /** The value of a record set in the cluster's zone, if there is one. */
  function Value(s: Scope, az: Azure, k: RecordKey): Option<Payload> { At(RecordsOf(s, az), k) }

  lemma PendingValue(s: Scope, records: Records, listing: seq<RecordSet>, k: RecordKey)
    requires s.DesiredA().Some? && WellTyped(records) && IsListing(records, listing)
    ensures WellTyped(Overlay(records, Pending(s, listing)))
    ensures At(Overlay(records, Pending(s, listing)), k) == RunValue(Goals(s), k, At(records, k), OtherLeads(listing, k))
  {
    GoalsAreDesirable(s);
    PendingIsMissing(s, listing);
    MissingIsFilter(Goals(s), listing);
    forall d | d in Pending(s, listing) ensures OwnPayload(d) { assert Desirable(d); }
    WellTypedOverlay(records, Pending(s, listing));
    PassAt(records, Goals(s), listing, k);
  }

  lemma NewZoneValue(s: Scope, servers: seq<string>, k: RecordKey)
    requires s.DesiredA().Some? && (k.rtype.A? || k.rtype.CNAME?)
    ensures var after := Overlay(ApexRecords(servers), Pending(s, []));
            WellTyped(after) && At(after, k) == RunValue(Goals(s), k, None, false)
  {
    GoalsAreDesirable(s);
    PendingIsMissing(s, []);
    AllNeededWithoutListing(Goals(s));
    WellTypedOverlay(ApexRecords(servers), Goals(s));
    OverlayAt(ApexRecords(servers), Goals(s), k);
    LastIsMember(Goals(s), k);
    LastOtherMeaning(Goals(s), k, None);
  }

  lemma {:induction false} AllNeededWithoutListing(sets: seq<RecordSet>)
    ensures Missing(sets, []) == sets
  {
    if sets != [] { AllNeededWithoutListing(sets[1..]); }
  }

  /** What a successful run makes of every A and CNAME set, for every listing, and for a zone it creates. */
  lemma {:induction false} SuccessfulRunValue(s: Scope, pc: Pc, az: Azure, outcomes: seq<Outcome>, k: RecordKey)
    requires s.DesiredA().Some? && WellTyped(RecordsOf(s, az)) && (k.rtype.A? || k.rtype.CNAME?)
    requires pc.GetGroup? || pc.GetManagementGroup? || pc.WriteGroup? || pc.ListZone? || (pc.CreateZone? && !HasZone(s, az))
    requires Steps(s, pc, az, outcomes).0 == Stopped(true)
    ensures var after := Steps(s, pc, az, outcomes).1;
            && HasZone(s, after) && WellTyped(RecordsOf(s, after))
            && Value(s, after, k) == RunValue(Goals(s), k, Value(s, az, k), OtherLeads(Seen(s, pc, az, outcomes), k))
    decreases outcomes
  {
    if outcomes != [] {
      var o := outcomes[0];
      var pc', az' := Next(s, pc, az, o), Effect(s, pc, az, o);
      StoppedStays(s, pc', az', outcomes[1..]);
      if pc'.GetZone? {
        SuccessWritesTheRest(s, pc', az', outcomes[1..]);
        if pc.CreateZone? { NewZoneValue(s, o.servers, k); } else { PendingValue(s, ZoneOf(s, az).records, o.listing, k); }
      } else {
        SuccessfulRunValue(s, pc', az', outcomes[1..], k);
      }
    }
  }

  /** Successive successful runs: `states[i + 1]` is what the run fed with `runs[i]` left. */
  ghost predicate SuccessiveRuns(s: Scope, states: seq<Azure>, runs: seq<seq<Outcome>>) {
    && |states| == |runs| + 1 && WellTyped(RecordsOf(s, states[0]))
    && forall i | 0 <= i < |runs| :: Steps(s, Begin(s, false), states[i], runs[i]) == (Stopped(true), states[i + 1])
  }

  /** In the run that starts from `az`, a set of another type led the name of `k`. */
  predicate OtherLed(s: Scope, az: Azure, run: seq<Outcome>, k: RecordKey) {
    OtherLeads(Seen(s, Begin(s, false), az, run), k)
  }

  lemma {:induction false} RunValues(s: Scope, states: seq<Azure>, runs: seq<seq<Outcome>>, k: RecordKey, i: nat)
    requires s.DesiredA().Some? && SuccessiveRuns(s, states, runs) && (k.rtype.A? || k.rtype.CNAME?) && i < |states|
    ensures WellTyped(RecordsOf(s, states[i]))
    ensures i > 0 ==>
              Value(s, states[i], k) == RunValue(Goals(s), k, Value(s, states[i - 1], k), OtherLed(s, states[i - 1], runs[i - 1], k))
  {
    if i > 0 {
      RunValues(s, states, runs, k, i - 1);
      assert Steps(s, Begin(s, false), states[i - 1], runs[i - 1]) == (Stopped(true), states[i]);
      SuccessfulRunValue(s, Begin(s, false), states[i - 1], runs[i - 1], k);
    }
  }

  /**
   After a first successful run, the next one changes a record exactly if its desired sets disagree
   and its own type leads now, or led before and made that run turn away from the last desired value.
   */
  lemma RunsAlternateIff(s: Scope, states: seq<Azure>, runs: seq<seq<Outcome>>, k: RecordKey, i: nat)
    requires s.DesiredA().Some? && SuccessiveRuns(s, states, runs) && (k.rtype.A? || k.rtype.CNAME?)
    requires 1 <= i < |runs|
    ensures Value(s, states[i + 1], k) != Value(s, states[i], k)
       <==> Conflict(Goals(s), k) &&
            (OtherLed(s, states[i], runs[i], k) ==>
               !OtherLed(s, states[i - 1], runs[i - 1], k) && Value(s, states[i - 1], k) == Last(Goals(s), k))
  {
    var before, now := OtherLed(s, states[i - 1], runs[i - 1], k), OtherLed(s, states[i], runs[i], k);
    var v := Value(s, states[i - 1], k);
    assert Value(s, states[i], k) == RunValue(Goals(s), k, v, before) by { RunValues(s, states, runs, k, i); }
    assert Value(s, states[i + 1], k) == RunValue(Goals(s), k, Value(s, states[i], k), now) by { RunValues(s, states, runs, k, i + 1); }
    NextRunChangesIff(Goals(s), k, v, before, now);
  }

  /** While its own type leads, a record has after two runs the value it had: with a conflict it alternates for ever. */
  lemma RunsHavePeriodTwo(s: Scope, states: seq<Azure>, runs: seq<seq<Outcome>>, k: RecordKey, i: nat)
    requires s.DesiredA().Some? && SuccessiveRuns(s, states, runs) && (k.rtype.A? || k.rtype.CNAME?)
    requires 1 <= i && i + 1 < |runs|
    requires forall j | i <= j <= i + 1 :: !OtherLed(s, states[j], runs[j], k)
    ensures Value(s, states[i + 2], k) == Value(s, states[i], k)
  {
    RunValues(s, states, runs, k, i);
    RunValues(s, states, runs, k, i + 1);
    RunValues(s, states, runs, k, i + 2);
    PeriodTwo(Goals(s), k, Value(s, states[i - 1], k), OtherLed(s, states[i - 1], runs[i - 1], k));
  }

  // ----- which records settle -----

  /** True answers that show the set of `k` first, for any run that finds it in the zone. */
  lemma {:induction false} AnswersLedBy(s: Scope, pc: Pc, az: Azure, k: RecordKey, n: nat) returns (outcomes: seq<Outcome>)
    requires k in RecordsOf(s, az) && s.ResourceGroup() in az.groups
    requires pc.GetGroup? || pc.GetManagementGroup? || pc.WriteGroup? || pc.ListZone? || pc.Stopped?
    ensures |outcomes| == n && AllAnswered(s, pc, az, outcomes) && !OtherLeads(Seen(s, pc, az, outcomes), k)
    decreases n
  {
    if n == 0 {
      outcomes := [];
    } else {
      var all := EveryZoneCanBeListed(RecordsOf(s, az));
      var o := Outcome(Done, [RecordSet(k, RecordsOf(s, az)[k])] + all, []);
      var pc', az' := Next(s, pc, az, o), Effect(s, pc, az, o);
      var rest: seq<Outcome>;
      if pc.ListZone? { rest := AnswersExist(s, pc', az', n - 1); } else { rest := AnswersLedBy(s, pc', az', k, n - 1); }
      outcomes := [o] + rest;
      assert outcomes[0] == o && outcomes[1..] == rest;
    }
  }

  /** The next successful run from `az`, whatever it is answered, leaves the value of `k` alone. */
  ghost predicate Stable(s: Scope, az: Azure, k: RecordKey) {
    forall next | Steps(s, Begin(s, false), az, next).0 == Stopped(true) ::
      Value(s, Steps(s, Begin(s, false), az, next).1, k) == Value(s, az, k)
  }

  /**
   What a caller can check beforehand: the record a successful run has left is safe from all
   successful runs that may follow exactly if the desired sets for it agree.
   */
  lemma StableIff(s: Scope, az0: Azure, run: seq<Outcome>, k: RecordKey)
    requires s.DesiredA().Some? && WellTyped(RecordsOf(s, az0)) && (k.rtype.A? || k.rtype.CNAME?)
    requires Steps(s, Begin(s, false), az0, run).0 == Stopped(true)
    ensures Stable(s, Steps(s, Begin(s, false), az0, run).1, k) <==> !Conflict(Goals(s), k)
  {
    var begin, az := Begin(s, false), Steps(s, Begin(s, false), az0, run).1;
    var v, before := Value(s, az0, k), OtherLed(s, az0, run, k);
    SuccessfulRunValue(s, begin, az0, run, k);
    if Conflict(Goals(s), k) {
      StepsFind(s, begin, az0, run);
      ValueOfConflict(Goals(s), k, v, before);
      var next := AnswersLedBy(s, begin, az, k, CallsLeft(s, begin));
      AnsweredRunSucceeds(s, begin, az, next);
      SuccessfulRunValue(s, begin, az, next, k);
      NextRunChangesIff(Goals(s), k, v, before, false);
    } else {
      forall next | Steps(s, begin, az, next).0 == Stopped(true) ensures Value(s, Steps(s, begin, az, next).1, k) == Value(s, az, k) {
        SuccessfulRunValue(s, begin, az, next, k);
        NextRunChangesIff(Goals(s), k, v, before, OtherLed(s, az, next, k));
      }
    }
  }

  lemma ValueOfConflict(desired: seq<RecordSet>, k: RecordKey, v: Option<Payload>, otherLeads: bool)
    requires Conflict(desired, k)
    ensures RunValue(desired, k, v, otherLeads).Some?
  {
    LastIsMember(desired, k);
    LastOtherMeaning(desired, k, v);
  }

  /** Without a conflict, what the first successful run has made of a record stays through all later ones. */
  lemma {:induction false} AgreedRecordsStay(s: Scope, states: seq<Azure>, runs: seq<seq<Outcome>>, k: RecordKey, i: nat)
    requires s.DesiredA().Some? && SuccessiveRuns(s, states, runs) && (k.rtype.A? || k.rtype.CNAME?)
    requires 1 <= i < |states| && !Conflict(Goals(s), k)
    ensures Value(s, states[i], k) == Value(s, states[1], k)
  {
    if i > 1 {
      AgreedRecordsStay(s, states, runs, k, i - 1);
      RunsAlternateIff(s, states, runs, k, i - 1);
    }
  }
}
