/** The record diff: which desired sets a run writes, and what repeated runs make of a zone. */
module RecordDiff {
  import opened AzureModel

  predicate IsFirst(listing: seq<RecordSet>, i: nat, name: string) {
    i < |listing| && listing[i].key.name == name && forall j | 0 <= j < i :: listing[j].key.name != name
  }

  /** First set of that name, whatever its type (slices.IndexFunc on the listing). */
  function Lookup(listing: seq<RecordSet>, name: string): (r: Option<RecordSet>)
    ensures r.Some? ==> r.value in listing && exists i: nat :: IsFirst(listing, i, name) && listing[i] == r.value
    ensures r.None? ==> forall e | e in listing :: e.key.name != name
  {
    if listing == [] then None
    else if listing[0].key.name == name then
      assert IsFirst(listing, 0, name);
      Some(listing[0])
    else
      var rest := Lookup(listing[1..], name);
      assert rest.Some? ==> exists i: nat :: IsFirst(listing, i, name) && listing[i] == rest.value by {
        if rest.Some? {
          var i: nat :| IsFirst(listing[1..], i, name) && listing[1..][i] == rest.value;
          assert IsFirst(listing, i + 1, name) && listing[i + 1] == rest.value;
        }
      }
      rest
  }

  /** The two cases of the diff: the payload of the desired type differs, or the TTL does. */
  predicate Differs(d: RecordSet, current: RecordSet) {
    if d.key.rtype.CNAME?
    then d.props.alias != current.props.alias || d.props.ttl != current.props.ttl
    else d.props.addresses != current.props.addresses || d.props.ttl != current.props.ttl
  }

  predicate NeedsWrite(d: RecordSet, listing: seq<RecordSet>) {
    var current := Lookup(listing, d.key.name);
    current.None? || Differs(d, current.value)
  }

  function Missing(desired: seq<RecordSet>, listing: seq<RecordSet>): seq<RecordSet> {
    if desired == [] then []
    else (if NeedsWrite(desired[0], listing) then [desired[0]] else []) + Missing(desired[1..], listing)
  }

  /** The shape of every set the operator desires: an A or a CNAME set with its payload filled in. */
  predicate Desirable(d: RecordSet) {
    && OwnPayload(d)
    && (d.key.rtype.A? ==> d.props.addresses != [])
    && (d.key.rtype.CNAME? ==> d.props.alias.Some?)
    && (d.key.rtype.A? || d.key.rtype.CNAME?)
  }

  predicate AllDesirable(desired: seq<RecordSet>) {
    forall d | d in desired :: Desirable(d)
  }

  /** A set of another type comes first among the sets of `k`'s name. */
  predicate OtherLeads(listing: seq<RecordSet>, k: RecordKey) {
    var current := Lookup(listing, k.name);
    current.Some? && current.value.key.rtype != k.rtype
  }

  predicate Leads(listing: seq<RecordSet>, d: RecordSet) { !OtherLeads(listing, d.key) }

  predicate AllLead(listing: seq<RecordSet>, desired: seq<RecordSet>) {
    forall d | d in desired :: Leads(listing, d)
  }

  /** Desired sets of the same name and type agree. */
  predicate Consistent(desired: seq<RecordSet>) {
    forall d, e | d in desired && e in desired && d.key == e.key :: d.props == e.props
  }

  predicate DistinctKeys(desired: seq<RecordSet>) {
    forall i, j | 0 <= i < j < |desired| :: desired[i].key != desired[j].key
  }

  predicate AllHold(records: Records, sets: seq<RecordSet>) {
    forall d | d in sets :: Holds(records, d)
  }

  function At(records: Records, k: RecordKey): Option<Payload> {
    if k in records then Some(records[k]) else None
  }

  /** The zone after the sets have been written one after the other. */
  function Overlay(records: Records, sets: seq<RecordSet>): Records
    decreases sets
  {
    if sets == [] then records
    else Overlay(records[sets[0].key := sets[0].props], sets[1..])
  }

  /** The payload the last of `sets` gives to `k`. */
  function Last(sets: seq<RecordSet>, k: RecordKey): Option<Payload> {
    if sets == [] then None
    else if Last(sets[1..], k).Some? then Last(sets[1..], k)
    else if sets[0].key == k then Some(sets[0].props)
    else None
  }

  /** One successful run over a zone: the listing decides, the writes follow in order. */
  function Pass(records: Records, desired: seq<RecordSet>, listing: seq<RecordSet>): Records {
    Overlay(records, Missing(desired, listing))
  }

  // ----- what a diff means -----

  lemma {:induction false} MissingIsFilter(desired: seq<RecordSet>, listing: seq<RecordSet>)
    ensures forall d :: d in Missing(desired, listing) <==> d in desired && NeedsWrite(d, listing)
    ensures |Missing(desired, listing)| <= |desired|
  {
    if desired != [] {
      MissingIsFilter(desired[1..], listing);
      assert desired == [desired[0]] + desired[1..];
    }
  }

  /** One turn of the diff loop: what has been collected, and what is still to come. */
  lemma MissingFrom(done: seq<RecordSet>, desired: seq<RecordSet>, listing: seq<RecordSet>, i: nat)
    requires i < |desired|
    ensures done + Missing(desired[i..], listing)
         == (if NeedsWrite(desired[i], listing) then done + [desired[i]] else done) + Missing(desired[i + 1..], listing)
  {}

  lemma NeedsWriteMeaning(d: RecordSet, listing: seq<RecordSet>)
    requires Desirable(d) && forall e | e in listing :: OwnPayload(e)
    ensures NeedsWrite(d, listing) <==> Lookup(listing, d.key.name) != Some(d)
  {}

  /**
   Looking records up by name alone is sound: a set that is not scheduled exists with the right
   type, payload and TTL; a set that is right is scheduled exactly if another type leads.
   */
  lemma NameOnlyLookupIsSound(records: Records, listing: seq<RecordSet>, d: RecordSet)
    requires WellTyped(records) && IsListing(records, listing) && Desirable(d)
    ensures !NeedsWrite(d, listing) ==> Holds(records, d)
    ensures Holds(records, d) ==> (NeedsWrite(d, listing) <==> !Leads(listing, d))
  {}

  lemma {:induction false} OverlayAt(records: Records, sets: seq<RecordSet>, k: RecordKey)
    ensures At(Overlay(records, sets), k) == if Last(sets, k).Some? then Last(sets, k) else At(records, k)
    decreases sets
  {
    if sets != [] { OverlayAt(records[sets[0].key := sets[0].props], sets[1..], k); }
  }

  lemma {:induction false} LastIsMember(sets: seq<RecordSet>, k: RecordKey)
    ensures Last(sets, k).Some? ==> RecordSet(k, Last(sets, k).value) in sets
    ensures Last(sets, k).None? ==> forall d | d in sets :: d.key != k
  {
    if sets != [] {
      LastIsMember(sets[1..], k);
      assert sets == [sets[0]] + sets[1..];
    }
  }

  lemma RecordsEqual(a: Records, b: Records)
    requires forall k :: At(a, k) == At(b, k)
    ensures a == b
  {
    forall k ensures k in a <==> k in b { assert At(a, k) == At(b, k); }
    forall k | k in a ensures a[k] == b[k] { assert At(a, k) == At(b, k); }
  }

  /** Writing some of the consistent desired sets, the others being right already, gives all of them. */
  lemma OverlayPart(records: Records, part: seq<RecordSet>, desired: seq<RecordSet>)
    requires Consistent(desired)
    requires forall d | d in part :: d in desired
    requires forall d | d in desired :: d in part || Holds(records, d)
    ensures Overlay(records, part) == Overlay(records, desired)
  {
    forall k ensures At(Overlay(records, part), k) == At(Overlay(records, desired), k) {
      OverlayAt(records, part, k);
      OverlayAt(records, desired, k);
      LastIsMember(part, k);
      LastIsMember(desired, k);
      if Last(desired, k).Some? {
        var d := RecordSet(k, Last(desired, k).value);
        assert d in part || Holds(records, d);
      }
    }
    RecordsEqual(Overlay(records, part), Overlay(records, desired));
  }

  /** With consistent desired sets one run gives the zone all of them and changes nothing else. */
  lemma PassReachesGoal(records: Records, desired: seq<RecordSet>, listing: seq<RecordSet>)
    requires WellTyped(records) && IsListing(records, listing)
    requires Consistent(desired) && AllDesirable(desired)
    ensures Pass(records, desired, listing) == Overlay(records, desired)
    ensures AllHold(Pass(records, desired, listing), desired)
  {
    MissingIsFilter(desired, listing);
    forall d | d in desired ensures d in Missing(desired, listing) || Holds(records, d) {
      NameOnlyLookupIsSound(records, listing, d);
    }
    OverlayPart(records, Missing(desired, listing), desired);
    OverlayHolds(records, desired);
  }

  lemma OverlayHolds(records: Records, desired: seq<RecordSet>)
    requires Consistent(desired)
    ensures AllHold(Overlay(records, desired), desired)
  {
    forall d | d in desired ensures Holds(Overlay(records, desired), d) {
      OverlayAt(records, desired, d.key);
      LastIsMember(desired, d.key);
      assert RecordSet(d.key, Last(desired, d.key).value) in desired;
    }
  }

  /** Writing a goal does not change where the zone is heading. */
  lemma GoalWriteIsNeutral(records: Records, goals: seq<RecordSet>, d: RecordSet)
    requires Consistent(goals) && d in goals
    ensures Overlay(records[d.key := d.props], goals) == Overlay(records, goals)
  {
    OverlayPart(records, [d] + goals, goals);
    assert ([d] + goals)[1..] == goals;
  }

  /** After the first pending write, what is not right is still pending. */
  lemma PendingShrinks(records: Records, goals: seq<RecordSet>, pending: seq<RecordSet>)
    requires Consistent(goals) && pending != [] && pending[0] in goals
    requires forall d | d in goals :: d in pending || Holds(records, d)
    ensures forall d | d in goals :: d in pending[1..] || Holds(records[pending[0].key := pending[0].props], d)
  {}

  // ----- desired sets that disagree with each other -----

  /** The payload the last of `sets` gives to `k` among those that differ from `v`. */
  function LastOther(sets: seq<RecordSet>, k: RecordKey, v: Option<Payload>): Option<Payload> {
    if sets == [] then None
    else if LastOther(sets[1..], k, v).Some? then LastOther(sets[1..], k, v)
    else if sets[0].key == k && Some(sets[0].props) != v then Some(sets[0].props)
    else None
  }

  /**
   What one run makes of the value of `k`: the last desired one, if a set of another type leads the
   name; otherwise the last desired one that differs from the value it finds.
   */
  function RunValue(desired: seq<RecordSet>, k: RecordKey, v: Option<Payload>, otherLeads: bool): Option<Payload> {
    var written := if otherLeads then Last(desired, k) else LastOther(desired, k, v);
    if written.Some? then written else v
  }

  /** Two desired sets for `k` differ. */
  ghost predicate Conflict(desired: seq<RecordSet>, k: RecordKey) {
    exists d, e | d in desired && e in desired :: d.key == k && e.key == k && d.props != e.props
  }

  lemma {:induction false} LastOtherMeaning(sets: seq<RecordSet>, k: RecordKey, v: Option<Payload>)
    ensures LastOther(sets, k, v).Some? ==> LastOther(sets, k, v) != v && RecordSet(k, LastOther(sets, k, v).value) in sets
    ensures LastOther(sets, k, v).None? ==> forall d | d in sets && d.key == k :: Some(d.props) == v
    ensures Last(sets, k).Some? && Last(sets, k) != v ==> LastOther(sets, k, v) == Last(sets, k)
  {
    if sets != [] {
      LastOtherMeaning(sets[1..], k, v);
      assert sets == [sets[0]] + sets[1..];
      LastIsMember(sets[1..], k);
    }
  }

  lemma ScheduledFor(records: Records, listing: seq<RecordSet>, d: RecordSet)
    requires WellTyped(records) && IsListing(records, listing) && Desirable(d)
    ensures NeedsWrite(d, listing) <==> OtherLeads(listing, d.key) || Some(d.props) != At(records, d.key)
  {
    NameOnlyLookupIsSound(records, listing, d);
    var current := Lookup(listing, d.key.name);
    if current.Some? { assert Holds(records, current.value); }
  }

  lemma {:induction false} LastOfMissing(records: Records, desired: seq<RecordSet>, listing: seq<RecordSet>, k: RecordKey)
    requires WellTyped(records) && IsListing(records, listing) && AllDesirable(desired)
    ensures Last(Missing(desired, listing), k) ==
            if OtherLeads(listing, k) then Last(desired, k) else LastOther(desired, k, At(records, k))
  {
    if desired != [] {
      var d, rest := desired[0], Missing(desired[1..], listing);
      LastOfMissing(records, desired[1..], listing, k);
      ScheduledFor(records, listing, d);
      if NeedsWrite(d, listing) { assert ([d] + rest)[1..] == rest; } else { assert [] + rest == rest; }
    }
  }

  /** What a run makes of every record, for every listing. */
  lemma PassAt(records: Records, desired: seq<RecordSet>, listing: seq<RecordSet>, k: RecordKey)
    requires WellTyped(records) && IsListing(records, listing) && AllDesirable(desired)
    ensures At(Pass(records, desired, listing), k) == RunValue(desired, k, At(records, k), OtherLeads(listing, k))
  {
    OverlayAt(records, Missing(desired, listing), k);
    LastOfMissing(records, desired, listing, k);
  }

  /** Some value survives a run exactly if the desired sets for `k` agree, or a set of another type leads. */
  lemma FixedPointIff(desired: seq<RecordSet>, k: RecordKey, otherLeads: bool)
    ensures (exists v :: RunValue(desired, k, v, otherLeads) == v) <==> !Conflict(desired, k) || otherLeads
  {
    LastIsMember(desired, k);
    if !Conflict(desired, k) || otherLeads {
      var v := Last(desired, k);
      LastOtherMeaning(desired, k, v);
      assert RunValue(desired, k, v, otherLeads) == v;
    } else {
      forall v ensures RunValue(desired, k, v, otherLeads) != v { LastOtherMeaning(desired, k, v); }
    }
  }

  /**
   After a run, the next one changes the value again exactly if desired sets disagree and `k`'s own
   type leads now, or led before and made the run turn away from the last desired value.
   */
  lemma NextRunChangesIff(desired: seq<RecordSet>, k: RecordKey, v: Option<Payload>, before: bool, now: bool)
    ensures var v1 := RunValue(desired, k, v, before);
            RunValue(desired, k, v1, now) != v1 <==> Conflict(desired, k) && (now ==> !before && v == Last(desired, k))
  {
    var v1 := RunValue(desired, k, v, before);
    LastIsMember(desired, k);
    LastOtherMeaning(desired, k, v);
    LastOtherMeaning(desired, k, v1);
  }

  /** What one run leaves survives every later listing exactly if the desired sets agree. */
  lemma SettlesIff(desired: seq<RecordSet>, k: RecordKey, v: Option<Payload>, before: bool)
    ensures var v1 := RunValue(desired, k, v, before);
            (forall now :: RunValue(desired, k, v1, now) == v1) <==> !Conflict(desired, k)
  {
    var v1 := RunValue(desired, k, v, before);
    NextRunChangesIff(desired, k, v, before, true);
    NextRunChangesIff(desired, k, v, before, false);
    assert RunValue(desired, k, v1, false) == v1 <==> !Conflict(desired, k);
  }

  /** While the own type leads, the value any run has left comes back after two runs. */
  lemma PeriodTwo(desired: seq<RecordSet>, k: RecordKey, v: Option<Payload>, before: bool)
    ensures var v1 := RunValue(desired, k, v, before);
            RunValue(desired, k, RunValue(desired, k, v1, false), false) == v1
  {
    var v1 := RunValue(desired, k, v, before);
    var v2 := RunValue(desired, k, v1, false);
    LastIsMember(desired, k);
    LastOtherMeaning(desired, k, v);
    LastOtherMeaning(desired, k, v1);
    LastOtherMeaning(desired, k, v2);
  }

  lemma {:induction false} MissingConcat(p: seq<RecordSet>, q: seq<RecordSet>, listing: seq<RecordSet>)
    ensures Missing(p + q, listing) == Missing(p, listing) + Missing(q, listing)
  {
    if p == [] {
      assert p + q == q;
    } else {
      MissingConcat(p[1..], q, listing);
      assert (p + q)[0] == p[0] && (p + q)[1..] == p[1..] + q;
      var head := if NeedsWrite(p[0], listing) then [p[0]] else [];
      assert head + (Missing(p[1..], listing) + Missing(q, listing)) == head + Missing(p[1..], listing) + Missing(q, listing);
    }
  }

  /** The sets whose name another type leads. */
  function NotLeading(sets: seq<RecordSet>, listing: seq<RecordSet>): seq<RecordSet> {
    if sets == [] then []
    else (if Leads(listing, sets[0]) then [] else [sets[0]]) + NotLeading(sets[1..], listing)
  }

  /** Over a zone that has all desired sets, exactly those are scheduled whose name another type leads. */
  lemma {:induction false} OnlyNotLeadingMissing(records: Records, listing: seq<RecordSet>, desired: seq<RecordSet>)
    requires WellTyped(records) && IsListing(records, listing) && AllDesirable(desired) && AllHold(records, desired)
    ensures Missing(desired, listing) == NotLeading(desired, listing)
    ensures AllLead(listing, desired) ==> Missing(desired, listing) == []
  {
    if desired != [] {
      NameOnlyLookupIsSound(records, listing, desired[0]);
      OnlyNotLeadingMissing(records, listing, desired[1..]);
    }
  }

  // ----- repair work -----

  /** How many of the desired sets the zone does not have. */
  function Disagree(desired: seq<RecordSet>, records: Records): nat {
    if desired == [] then 0
    else (if Holds(records, desired[0]) then 0 else 1) + Disagree(desired[1..], records)
  }

  lemma {:induction false} DisagreeUntouched(desired: seq<RecordSet>, records: Records, w: RecordSet)
    requires forall d | d in desired :: d.key != w.key
    ensures Disagree(desired, records[w.key := w.props]) == Disagree(desired, records)
  {
    if desired != [] { DisagreeUntouched(desired[1..], records, w); }
  }

  /** Writing a desired set that was wrong repairs exactly one disagreement. */
  lemma {:induction false} WriteRepairsOne(desired: seq<RecordSet>, records: Records, w: RecordSet)
    requires DistinctKeys(desired) && w in desired && !Holds(records, w)
    ensures Disagree(desired, records[w.key := w.props]) == Disagree(desired, records) - 1
  {
    if desired[0] == w {
      assert forall d | d in desired[1..] :: d.key != w.key;
      DisagreeUntouched(desired[1..], records, w);
    } else {
      assert w in desired[1..];
      WriteRepairsOne(desired[1..], records, w);
      var j :| 0 <= j < |desired[1..]| && desired[1..][j] == w;
      assert desired[0].key != desired[j + 1].key;
    }
  }

  // ----- the stale snapshot -----

  /** Two listings put sets of the same type first wherever both show the name. */
  predicate SameLead(a: seq<RecordSet>, b: seq<RecordSet>, name: string) {
    var x, y := Lookup(a, name), Lookup(b, name);
    x.Some? && y.Some? ==> x.value.key.rtype == y.value.key.rtype
  }

  lemma SameNeed(a: Records, la: seq<RecordSet>, b: Records, lb: seq<RecordSet>, d: RecordSet)
    requires WellTyped(a) && IsListing(a, la) && WellTyped(b) && IsListing(b, lb) && Desirable(d)
    requires At(a, d.key) == At(b, d.key) && SameLead(la, lb, d.key.name)
    ensures NeedsWrite(d, la) == NeedsWrite(d, lb)
  {}

  lemma {:induction false} SameMissing(a: Records, la: seq<RecordSet>, b: Records, lb: seq<RecordSet>, desired: seq<RecordSet>)
    requires WellTyped(a) && IsListing(a, la) && WellTyped(b) && IsListing(b, lb) && AllDesirable(desired)
    requires forall d | d in desired :: At(a, d.key) == At(b, d.key) && SameLead(la, lb, d.key.name)
    ensures Missing(desired, la) == Missing(desired, lb)
  {
    if desired != [] {
      SameNeed(a, la, b, lb, desired[0]);
      SameMissing(a, la, b, lb, desired[1..]);
    }
  }

  lemma {:induction false} WellTypedOverlay(records: Records, sets: seq<RecordSet>)
    requires WellTyped(records) && forall d | d in sets :: OwnPayload(d)
    ensures WellTyped(Overlay(records, sets))
    decreases sets
  {
    if sets != [] {
      assert OwnPayload(sets[0]);
      WellTypedOverlay(records[sets[0].key := sets[0].props], sets[1..]);
    }
  }

  /**
   The A and CNAME writes computed from the listing taken at the start of a run, before the A
   writes, are those that a fresh listing before each of the two steps would give, unless the
   fresh listing puts a set of another type first.
   */
  lemma StaleSnapshotIsSafe(records: Records, stale: seq<RecordSet>, desired: seq<RecordSet>, cnames: seq<RecordSet>,
                            beforeA: seq<RecordSet>, beforeCname: seq<RecordSet>)
    requires WellTyped(records) && IsListing(records, stale) && AllDesirable(desired) && AllDesirable(cnames)
    requires forall d | d in desired :: d.key.rtype.A?
    requires forall d | d in cnames :: d.key.rtype.CNAME?
    requires IsListing(records, beforeA) && IsListing(Pass(records, desired, stale), beforeCname)
    requires forall d | d in desired :: SameLead(stale, beforeA, d.key.name)
    requires forall d | d in cnames :: SameLead(stale, beforeCname, d.key.name)
    ensures Missing(desired, stale) == Missing(desired, beforeA)
    ensures Missing(cnames, stale) == Missing(cnames, beforeCname)
  {
    SameMissing(records, stale, records, beforeA, desired);
    MissingIsFilter(desired, stale);
    forall d | d in Missing(desired, stale) ensures OwnPayload(d) { assert Desirable(d); }
    WellTypedOverlay(records, Missing(desired, stale));
    forall d | d in cnames ensures At(records, d.key) == At(Pass(records, desired, stale), d.key) {
      OverlayAt(records, Missing(desired, stale), d.key);
      LastIsMember(Missing(desired, stale), d.key);
    }
    SameMissing(records, stale, Pass(records, desired, stale), beforeCname, cnames);
  }

  lemma {:induction false} AllMissing(records: Records, listing: seq<RecordSet>, sets: seq<RecordSet>)
    requires WellTyped(records) && IsListing(records, listing) && AllDesirable(sets)
    requires forall d | d in sets :: !Holds(records, d)
    ensures Missing(sets, []) == sets == Missing(sets, listing)
  {
    if sets != [] {
      NameOnlyLookupIsSound(records, listing, sets[0]);
      AllMissing(records, listing, sets[1..]);
    }
  }

  /** The same for a zone created in this run, whose snapshot is empty: no condition on the order. */
  lemma EmptySnapshotIsSafe(servers: seq<string>, desired: seq<RecordSet>, cnames: seq<RecordSet>,
                            beforeA: seq<RecordSet>, beforeCname: seq<RecordSet>)
    requires AllDesirable(desired) && AllDesirable(cnames)
    requires forall d | d in desired :: d.key.rtype.A?
    requires forall d | d in cnames :: d.key.rtype.CNAME?
    requires IsListing(ApexRecords(servers), beforeA)
    requires IsListing(Pass(ApexRecords(servers), desired, []), beforeCname)
    ensures Missing(desired, []) == Missing(desired, beforeA)
    ensures Missing(cnames, []) == Missing(cnames, beforeCname)
  {
    var apex := ApexRecords(servers);
    AllMissing(apex, beforeA, desired);
    WellTypedOverlay(apex, desired);
    forall d | d in cnames ensures !Holds(Overlay(apex, desired), d) {
      OverlayAt(apex, desired, d.key);
      LastIsMember(desired, d.key);
    }
    AllMissing(Overlay(apex, desired), beforeCname, cnames);
  }
}
