/** When a private run succeeds, and what it then has made (azure/services/privatedns/privatedns.go). */
module PrivateCompletion {
  import opened AzureModel
  import opened DesiredRecords
  import opened RecordDiff
  import opened PrivateRun

  /** An upper bound on the calls from `pc` to the end of a run. */
  function CallsLeft(s: PrivateScope, pc: Pc): nat {
    var sets := |s.Goals()|;
    match pc
    case ListRecords => 6 + sets
    case CreateZone => 5 + sets
    case ListLinks(_) => 4 + sets
    case DeleteLink(_, _) => 3 + sets
    case CreateLink(_) => 2 + sets
    case GetZone(_) => 1 + sets
    case WriteSets(pending) => |pending|
    case _ => 0
  }

  /** Listings of the zone's A sets and of its links, where they are asked for, are true ones. */
  predicate TrueListing(zone: Option<PrivateZone>, pc: Pc, o: PrivateOutcome) {
    && (pc.ListRecords? && zone.Some? ==> IsListing(OnlyA(zone.value.records), o.listing))
    && (pc.ListLinks? && zone.Some? ==> IsLinkListing(zone.value.links, o.linkNames))
  }

  /** The calls a run makes before it stops are answered, and truly. */
  ghost predicate AnsweredToTheEnd(s: PrivateScope, pc: Pc, zone: Option<PrivateZone>, outcomes: seq<PrivateOutcome>)
    decreases outcomes
  {
    outcomes != [] && !pc.Stopped? ==>
      && outcomes[0].reply.Done? && TrueListing(zone, pc, outcomes[0])
      && AnsweredToTheEnd(s, Next(s, pc, zone, outcomes[0]), Effect(s, pc, zone, outcomes[0]), outcomes[1..])
  }

  /** What a reconcile run has made by the time it gets to `pc`; `owned` tells whether it began with a link of the operator. */
  predicate Made(s: PrivateScope, owned: bool, zone: Option<PrivateZone>, pc: Pc) {
    match pc
    case ListRecords => owned == (zone.Some? && HasOwnLink(s, zone.value.links))
    case CreateZone => zone.None? && !owned
    case ListLinks(_) => zone.Some? && owned == HasOwnLink(s, zone.value.links)
    case DeleteLink(_, _) => zone.Some? && !owned
    case CreateLink(_) => zone.Some? && !owned
    case GetZone(_) => zone.Some? && Linked(s, owned, zone.value)
    case WriteSets(pending) => pending != [] && zone.Some? && Linked(s, owned, zone.value)
    case Stopped(ok) => ok ==> zone.Some? && Linked(s, owned, zone.value)
    case _ => false
  }

  predicate Linked(s: PrivateScope, owned: bool, zone: PrivateZone) {
    var name := s.resourceGroup + "-vnet-link";
    if owned then name in zone.links || exists n | n in zone.links :: zone.links[n].id == s.clientId
    else name in zone.links && zone.links[name].vnet == s.vnet
  }

  lemma PendingFits(s: PrivateScope, listing: seq<RecordSet>)
    ensures |Pending(s, listing)| <= |s.Goals()|
  {
    MissingIsFilter(s.DesiredA(), listing);
    MissingIsFilter(s.DesiredCname(), listing);
  }

  /** A call that is answered goes on towards success, and any other makes the run fail. */
  lemma AnsweredStep(s: PrivateScope, owned: bool, pc: Pc, zone: Option<PrivateZone>, o: PrivateOutcome)
    requires Made(s, owned, zone, pc) && !pc.Stopped?
    ensures Made(s, owned, Effect(s, pc, zone, o), Next(s, pc, zone, o))
    ensures (o.reply.Done? && TrueListing(zone, pc, o)) <==> Next(s, pc, zone, o) != Stopped(false)
    ensures CallsLeft(s, Next(s, pc, zone, o)) < CallsLeft(s, pc)
  {
    if pc.GetZone? { PendingFits(s, pc.listing); }
  }

  lemma {:induction false} SuccessIff(s: PrivateScope, owned: bool, pc: Pc, zone: Option<PrivateZone>, outcomes: seq<PrivateOutcome>)
    requires Made(s, owned, zone, pc) && Steps(s, pc, zone, outcomes).0.Stopped? && pc != Stopped(false)
    ensures var (pc', end) := Steps(s, pc, zone, outcomes);
            && (pc' == Stopped(true) <==> AnsweredToTheEnd(s, pc, zone, outcomes))
            && (pc' == Stopped(true) ==> end.Some? && Linked(s, owned, end.value))
    decreases outcomes
  {
    if pc.Stopped? {
      StoppedStays(s, pc, zone, outcomes);
    } else if outcomes != [] {
      var o := outcomes[0];
      var pc', zone' := Next(s, pc, zone, o), Effect(s, pc, zone, o);
      AnsweredStep(s, owned, pc, zone, o);
      if pc' == Stopped(false) {
        StoppedStays(s, pc', zone', outcomes[1..]);
      } else {
        SuccessIff(s, owned, pc', zone', outcomes[1..]);
      }
    }
  }

  lemma {:induction false} StepsAreHistory(s: PrivateScope, sys: System, outcomes: seq<PrivateOutcome>) returns (actions: seq<Action>)
    ensures Restart(true) !in actions
    ensures Exec(s, sys, actions) ==
            System(Steps(s, sys.pc, sys.zone, outcomes).1, sys.delete, Steps(s, sys.pc, sys.zone, outcomes).0)
    decreases outcomes
  {
    if outcomes == [] {
      actions := [];
    } else {
      var rest := StepsAreHistory(s, Do(s, sys, Call(outcomes[0])), outcomes[1..]);
      actions := [Call(outcomes[0])] + rest;
      assert actions[0] == Call(outcomes[0]) && actions[1..] == rest;
    }
  }

  /** Every run ends within the bound, whatever its calls answer. */
  lemma {:induction false} EveryRunEnds(s: PrivateScope, owned: bool, pc: Pc, zone: Option<PrivateZone>, outcomes: seq<PrivateOutcome>)
    requires Made(s, owned, zone, pc) && |outcomes| >= CallsLeft(s, pc)
    ensures Steps(s, pc, zone, outcomes).0.Stopped?
    decreases outcomes
  {
    if pc.Stopped? {
      StoppedStays(s, pc, zone, outcomes);
    } else {
      AnsweredStep(s, owned, pc, zone, outcomes[0]);
      EveryRunEnds(s, owned, Next(s, pc, zone, outcomes[0]), Effect(s, pc, zone, outcomes[0]), outcomes[1..]);
    }
  }

  /**
   From any zone and from none, a reconcile run that has ended has succeeded exactly if its calls
   were answered; then the zone exists, with the operator's link, one to the target network if there was
   none before, and with the desired sets over those it had, or over those of a new zone.
   */
  lemma PrivateRunSucceedsIff(s: PrivateScope, zone: Option<PrivateZone>, outcomes: seq<PrivateOutcome>)
    requires Steps(s, Begin(false), zone, outcomes).0.Stopped?
    ensures var (pc, end) := Steps(s, Begin(false), zone, outcomes);
            && (pc == Stopped(true) <==> AnsweredToTheEnd(s, Begin(false), zone, outcomes))
            && (pc == Stopped(true) ==>
                  && end.Some? && Linked(s, zone.Some? && HasOwnLink(s, zone.value.links), end.value)
                  && ((zone.Some? ==> WellTyped(zone.value.records)) ==>
                        && AllHold(end.value.records, s.Goals())
                        && end.value.records == Overlay(StartRecords(zone), s.Goals())))
  {
    SuccessIff(s, zone.Some? && HasOwnLink(s, zone.value.links), Begin(false), zone, outcomes);
    if zone.Some? ==> WellTyped(zone.value.records) {
      var actions := StepsAreHistory(s, System(zone, false, Begin(false)), outcomes);
      PrivateSuccessMeansConverged(s, zone, actions);
    }
  }

  /** Six calls and one per desired set are enough for every reconcile run to end. */
  lemma ReconcileRunsEnd(s: PrivateScope, zone: Option<PrivateZone>, outcomes: seq<PrivateOutcome>)
    requires |outcomes| >= 6 + |s.Goals()|
    ensures Steps(s, Begin(false), zone, outcomes).0.Stopped?
  {
    EveryRunEnds(s, zone.Some? && HasOwnLink(s, zone.value.links), Begin(false), zone, outcomes);
  }

  /** A delete run succeeds exactly if both calls are answered and the zone has no link but the operator's. */
  lemma PrivateDeletionSucceedsIff(s: PrivateScope, zone: Option<PrivateZone>, outcomes: seq<PrivateOutcome>)
    ensures var (pc, end) := Steps(s, Begin(true), zone, outcomes);
            && (pc == Stopped(true) <==>
                  && |outcomes| >= 2 && outcomes[0].reply.Done? && outcomes[1].reply.Done?
                  && (zone.Some? ==> forall n | n in zone.value.links :: n == s.resourceGroup + "-vnet-link"))
            && (pc == Stopped(true) ==> end.None?)
  {
    if |outcomes| > 0 {
      var pc1, zone1 := Next(s, DropLink, zone, outcomes[0]), Effect(s, DropLink, zone, outcomes[0]);
      assert Steps(s, DropLink, zone, outcomes) == Steps(s, pc1, zone1, outcomes[1..]);
      if |outcomes| > 1 {
        var pc2, zone2 := Next(s, pc1, zone1, outcomes[1]), Effect(s, pc1, zone1, outcomes[1]);
        assert Steps(s, pc1, zone1, outcomes[1..]) == Steps(s, pc2, zone2, outcomes[1..][1..]);
        StoppedStays(s, pc2, zone2, outcomes[1..][1..]);
      } else {
        assert outcomes[1..] == [];
      }
    }
    if zone.Some? { OnlyLink(zone.value.links, s.LinkName()); }
  }

  lemma OnlyLink(links: map<string, Link>, name: string)
    ensures links - {name} == map[] <==> forall n | n in links :: n == name
  {
    forall n | n in links && n != name ensures links - {name} != map[] { assert n in links - {name}; }
  }

  lemma {:induction false} EveryLinkCanBeListed(links: map<string, Link>) returns (names: seq<string>)
    ensures IsLinkListing(links, names)
    decreases |links|
  {
    if links == map[] {
      names := [];
    } else {
      var n :| n in links;
      assert links.Keys == (links - {n}).Keys + {n};
      var rest := EveryLinkCanBeListed(links - {n});
      names := [n] + rest;
    }
  }

  /** From every point of every run there are such answers of any length. */
  lemma {:induction false} AnswersExist(s: PrivateScope, pc: Pc, zone: Option<PrivateZone>, n: nat) returns (outcomes: seq<PrivateOutcome>)
    ensures |outcomes| == n && AnsweredToTheEnd(s, pc, zone, outcomes)
    decreases n
  {
    if n == 0 {
      outcomes := [];
    } else {
      var listing: seq<RecordSet>, names: seq<string> := [], [];
      if zone.Some? {
        listing := EveryZoneCanBeListed(OnlyA(zone.value.records));
        names := EveryLinkCanBeListed(zone.value.links);
      }
      var o := PrivateOutcome(Done, listing, names, "");
      var rest := AnswersExist(s, Next(s, pc, zone, o), Effect(s, pc, zone, o), n - 1);
      outcomes := [o] + rest;
      assert outcomes[0] == o && outcomes[1..] == rest;
    }
  }
}
