/** Setting a status condition on an unstructured object (pkg/infracluster/scope.go). */
module Conditions {
  import opened AzureModel

  /** `time` 0 is the zero time. */
  datatype Condition = Condition(ctype: string, status: string, reason: string, message: string, time: nat)

  /** An entry of the raw condition list. */
  datatype Item = NotAMap | Map(condition: Condition)

  predicate HasType(conditions: seq<Condition>, ctype: string) {
    exists c | c in conditions :: c.ctype == ctype
  }

  function Stamped(c: Condition, now: nat): Condition {
    if c.time == 0 then c.(time := now) else c
  }

  /** Every condition of the type is replaced; if there is none, one is appended, stamped with the current time. */
  function Upsert(conditions: seq<Condition>, c: Condition, now: nat): (r: seq<Condition>)
    ensures |r| == |conditions| + (if HasType(conditions, c.ctype) then 0 else 1)
    ensures forall i | 0 <= i < |conditions| ::
              r[i] == if conditions[i].ctype == c.ctype then Stamped(c, now) else conditions[i]
  {
    if HasType(conditions, c.ctype) then
      seq(|conditions|, i requires 0 <= i < |conditions| =>
        if conditions[i].ctype == c.ctype then Stamped(c, now) else conditions[i])
    else conditions + [c.(time := now)]
  }

  predicate AllMaps(raw: seq<Item>) {
    forall i | 0 <= i < |raw| :: raw[i].Map?
  }

  function Converted(raw: seq<Item>): (r: seq<Condition>)
    requires AllMaps(raw)
    ensures |r| == |raw| && forall i | 0 <= i < |raw| :: raw[i] == Map(r[i])
  {
    seq(|raw|, i requires 0 <= i < |raw| => raw[i].condition)
  }

  method ConvertItems(raw: seq<Item>) returns (conditions: Option<seq<Condition>>)
    ensures conditions == if !AllMaps(raw) then None else Some(Converted(raw))
  {
    var done: seq<Condition> := [];
    for i := 0 to |raw|
      invariant |done| == i && forall j | 0 <= j < i :: raw[j] == Map(done[j])
    {
      if raw[i].NotAMap? { return None; }
      done := done + [raw[i].condition];
    }
    assert done == Converted(raw);
    return Some(done);
  }

  /** The code's loop, which stamps the new condition at its first match; None is its error. */
  method SetCapiCondition(raw: seq<Item>, condition: Condition, now: nat) returns (r: Option<seq<Condition>>)
    ensures r == if !AllMaps(raw) then None else Some(Upsert(Converted(raw), condition, now))
  {
    var converted := ConvertItems(raw);
    if converted.None? { return None; }
    var conditions, c, found := converted.value, condition, false;
    ghost var before := conditions;
    for i := 0 to |conditions|
      invariant |conditions| == |before| && c == (if found then Stamped(condition, now) else condition)
      invariant found == HasType(before[..i], condition.ctype)
      invariant forall j | 0 <= j < |before| ::
                  conditions[j] == if j < i && before[j].ctype == condition.ctype then Stamped(condition, now) else before[j]
    {
      assert before[..i + 1] == before[..i] + [before[i]];
      if conditions[i].ctype == c.ctype {
        if c.time == 0 { c := c.(time := now); }
        conditions := conditions[i := c];
        found := true;
      }
    }
    assert before[..|before|] == before;
    if !found {
      c := c.(time := now);
      conditions := conditions + [c];
    }
    assert conditions == Upsert(before, condition, now);
    return Some(conditions);
  }

  predicate UniqueTypes(conditions: seq<Condition>) {
    forall i, j | 0 <= i < j < |conditions| :: conditions[i].ctype != conditions[j].ctype
  }

  predicate EqualUpToTime(p: seq<Condition>, q: seq<Condition>) {
    |p| == |q| && forall i | 0 <= i < |p| :: p[i].(time := 0) == q[i].(time := 0)
  }

  /** Other types keep position and content, unique types stay unique, and the type is there afterwards. */
  lemma UpsertIsLocal(conditions: seq<Condition>, c: Condition, now: nat)
    ensures var r := Upsert(conditions, c, now);
            && (forall i | 0 <= i < |conditions| && conditions[i].ctype != c.ctype :: r[i] == conditions[i])
            && (UniqueTypes(conditions) ==> UniqueTypes(r))
            && (forall d | d in r && d.ctype == c.ctype ::
                  d.(time := 0) == c.(time := 0) && d.time == if HasType(conditions, c.ctype) && c.time != 0 then c.time else now)
            && HasType(r, c.ctype)
  {}

  /** Setting the same condition again changes at most time stamps. */
  lemma UpsertTwice(conditions: seq<Condition>, c: Condition, now: nat, later: nat)
    ensures EqualUpToTime(Upsert(Upsert(conditions, c, now), c, later), Upsert(conditions, c, now))
  {}
}
