/** The update plan for one legacy record, and what DynamoDB makes of it. */
module MigrationPlan {
  import opened Strings
  import opened Naming

  datatype Value = Text(text: string) | TextList(texts: seq<string>) | Other(raw: string)

  /** Attribute names; the table keys are not among them. */
  datatype Name = StateUpdated | ClaimedAt | LastError | Outputs | Created | Executions | OtherName(name: string)

  /** The non-key attributes of an item; `state_updated`, an index key, is always text. */
  type Attrs = map<Name, Value>

  datatype Plan = Plan(sets: seq<(Name, Value)>, removes: seq<Name>)

  function StateUpdatedOf(a: Attrs): string {
    if StateUpdated in a && a[StateUpdated].Text? then a[StateUpdated].text else ""
  }

  function OriginalState(a: Attrs): string {
    BeforeUnderscore(StateUpdatedOf(a))
  }

  function StateTimestamp(a: Attrs): string {
    var su := StateUpdatedOf(a);
    if First(su, '_') == -1 then "" else su[First(su, '_') + 1..]
  }

  function ExecutionsOf(a: Attrs): seq<string> {
    if Executions in a && a[Executions].TextList? then a[Executions].texts else []
  }

  /** The part of the last execution's ARN behind its last colon; empty when there is no execution. */
  function LastExecutionId(executions: seq<string>): string {
    if executions == [] then "" else AfterLast(executions[|executions| - 1], ':')
  }

  function ExecutionId(a: Attrs): string {
    LastExecutionId(ExecutionsOf(a))
  }

  /** COMPLETED is renamed, keeping a non-empty time stamp. */
  function RenameSets(a: Attrs): seq<(Name, Value)> {
    if OriginalState(a) == "COMPLETED"
    then [(StateUpdated, Text(if StateTimestamp(a) != "" then "SUCCEEDED_" + StateTimestamp(a) else "SUCCEEDED"))]
    else []
  }

  /** A record without a claim time takes its creation time. */
  function ClaimSets(a: Attrs): seq<(Name, Value)> {
    if Created in a && ClaimedAt !in a then [(ClaimedAt, a[Created])] else []
  }

  /** `build_db_update_plan`. */
  function BuildPlan(a: Attrs): Plan {
    var state := OriginalState(a);
    Plan(
      RenameSets(a) + ClaimSets(a),
      (if state != "FAILED" && LastError in a then [LastError] else []) +
      (if Outputs in a && state != "SUCCEEDED" && state != "COMPLETED" then [Outputs] else []))
  }

  predicate IsNoop(plan: Plan) {
    plan.sets == [] && plan.removes == []
  }

  function ApplySets(a: Attrs, sets: seq<(Name, Value)>): Attrs
    decreases |sets|
  {
    if sets == [] then a else ApplySets(a[sets[0].0 := sets[0].1], sets[1..])
  }

  /** UpdateItem: the SET clause, then the REMOVE clause. */
  function Apply(a: Attrs, plan: Plan): Attrs {
    ApplySets(a, plan.sets) - (set name | name in plan.removes)
  }

  function Migrated(a: Attrs): Attrs {
    Apply(a, BuildPlan(a))
  }

  /** The form the current code expects of a record. */
  predicate Normal(a: Attrs) {
    && OriginalState(a) != "COMPLETED"
    && (Created in a ==> ClaimedAt in a)
    && (LastError in a ==> OriginalState(a) == "FAILED")
    && (Outputs in a ==> OriginalState(a) == "SUCCEEDED")
  }

  /** The plan has nothing to do on exactly the records in normal form. */
  lemma NoopIffNormal(a: Attrs)
    ensures IsNoop(BuildPlan(a)) <==> Normal(a)
  {
  }

  lemma {:induction false} ApplySetsConcat(a: Attrs, s: seq<(Name, Value)>, t: seq<(Name, Value)>)
    ensures ApplySets(a, s + t) == ApplySets(ApplySets(a, s), t)
    decreases |s|
  {
    if s == [] {
      assert s + t == t;
    } else {
      assert (s + t)[1..] == s[1..] + t;
      ApplySetsConcat(a[s[0].0 := s[0].1], s[1..], t);
    }
  }

  /** What `state_updated` becomes. */
  function RenamedText(a: Attrs): string {
    if OriginalState(a) != "COMPLETED" then StateUpdatedOf(a)
    else if StateTimestamp(a) != "" then "SUCCEEDED_" + StateTimestamp(a) else "SUCCEEDED"
  }

  lemma {:induction false} ApplyRename(a: Attrs)
    ensures var m := ApplySets(a, RenameSets(a));
            && (forall name | name != StateUpdated :: (name in m <==> name in a) && (name in a ==> m[name] == a[name]))
            && (OriginalState(a) != "COMPLETED" ==> m == a)
            && StateUpdatedOf(m) == RenamedText(a)
  {
    var sets := RenameSets(a);
    if sets != [] {
      assert sets[1..] == [];
      assert ApplySets(a, sets) == ApplySets(a[sets[0].0 := sets[0].1], sets[1..]);
    }
  }

  lemma {:induction false} ApplyClaim(a: Attrs, m: Attrs)
    ensures var n := ApplySets(m, ClaimSets(a));
            n == if Created in a && ClaimedAt !in a then m[ClaimedAt := a[Created]] else m
  {
    var sets := ClaimSets(a);
    if sets != [] {
      assert sets[1..] == [];
      assert ApplySets(m, sets) == ApplySets(m[sets[0].0 := sets[0].1], sets[1..]);
    }
  }

  function Removed(a: Attrs): set<Name> {
    set name | name in BuildPlan(a).removes
  }

  lemma RemovedNames(a: Attrs)
    ensures LastError in Removed(a) <==> OriginalState(a) != "FAILED" && LastError in a
    ensures Outputs in Removed(a) <==> Outputs in a && OriginalState(a) !in {"SUCCEEDED", "COMPLETED"}
    ensures Removed(a) <= {LastError, Outputs}
  {
  }

  /** The record after the SET clause. */
  function AfterSets(a: Attrs): Attrs {
    ApplySets(a, BuildPlan(a).sets)
  }

  lemma {:induction false} AfterSetsInOrder(a: Attrs)
    ensures AfterSets(a) == ApplySets(ApplySets(a, RenameSets(a)), ClaimSets(a))
  {
    ApplySetsConcat(a, RenameSets(a), ClaimSets(a));
  }

  lemma RenamedState(a: Attrs)
    ensures StateUpdatedOf(AfterSets(a)) == RenamedText(a)
  {
    AfterSetsInOrder(a);
    ApplyRename(a);
    ApplyClaim(a, ApplySets(a, RenameSets(a)));
  }

  /** What the SET clause does to every attribute but the state. */
  ghost predicate SetsOnlyClaim(a: Attrs, s: Attrs) {
    && (forall name | name !in {StateUpdated, ClaimedAt} ::
          (name in s <==> name in a) && (name in a ==> s[name] == a[name]))
    && (ClaimedAt in s <==> ClaimedAt in a || Created in a)
    && (ClaimedAt in s ==> s[ClaimedAt] == if ClaimedAt in a then a[ClaimedAt] else a[Created])
  }

  lemma SetAttributes(a: Attrs)
    ensures SetsOnlyClaim(a, AfterSets(a))
  {
    AfterSetsInOrder(a);
    ApplyRename(a);
    ApplyClaim(a, ApplySets(a, RenameSets(a)));
  }

  /** What the REMOVE clause leaves of `s`. */
  ghost predicate RemovesOnly(s: Attrs, m: Attrs, error: bool, outputs: bool) {
    && (forall name | name !in {LastError, Outputs} :: name in m <==> name in s)
    && (LastError in m <==> LastError in s && !error)
    && (Outputs in m <==> Outputs in s && !outputs)
    && (forall name | name in m :: m[name] == s[name])
  }

  lemma AfterRemoves(a: Attrs)
    ensures RemovesOnly(AfterSets(a), Migrated(a), LastError in Removed(a), Outputs in Removed(a))
  {
    RemovedNames(a);
    assert Migrated(a) == AfterSets(a) - Removed(a);
  }

  lemma SetThenRemove(a: Attrs, s: Attrs, m: Attrs, error: bool, outputs: bool)
    requires SetsOnlyClaim(a, s) && RemovesOnly(s, m, error, outputs)
    ensures forall name | name !in {StateUpdated, ClaimedAt, LastError, Outputs} ::
              (name in m <==> name in a) && (name in a ==> m[name] == a[name])
    ensures ClaimedAt in m <==> ClaimedAt in a || Created in a
    ensures ClaimedAt in m ==> m[ClaimedAt] == if ClaimedAt in a then a[ClaimedAt] else a[Created]
    ensures (LastError in m <==> LastError in a && !error) && (LastError in m ==> m[LastError] == a[LastError])
    ensures (Outputs in m <==> Outputs in a && !outputs) && (Outputs in m ==> m[Outputs] == a[Outputs])
  {
  }

  /** The migrated record, attribute by attribute. */
  lemma MigratedAttributes(a: Attrs)
    ensures var m := Migrated(a);
            && (forall name | name !in {StateUpdated, ClaimedAt, LastError, Outputs} ::
                  (name in m <==> name in a) && (name in a ==> m[name] == a[name]))
            && (ClaimedAt in m <==> ClaimedAt in a || Created in a)
            && (ClaimedAt in m ==> m[ClaimedAt] == if ClaimedAt in a then a[ClaimedAt] else a[Created])
            && (LastError in m <==> LastError in a && OriginalState(a) == "FAILED")
            && (LastError in m ==> m[LastError] == a[LastError])
            && (Outputs in m <==> Outputs in a && OriginalState(a) in {"SUCCEEDED", "COMPLETED"})
            && (Outputs in m ==> m[Outputs] == a[Outputs])
  {
    SetAttributes(a);
    AfterRemoves(a);
    RemovedNames(a);
    SetThenRemove(a, AfterSets(a), Migrated(a), LastError in Removed(a), Outputs in Removed(a));
  }

  lemma MigratedText(a: Attrs)
    ensures StateUpdatedOf(Migrated(a)) == RenamedText(a)
  {
    RenamedState(a);
    AfterRemoves(a);
  }

  lemma SplitSucceeded(stamp: string)
    ensures var su := "SUCCEEDED_" + stamp; First(su, '_') == 9 && su[..9] == "SUCCEEDED" && su[10..] == stamp
  {
    FirstIs("SUCCEEDED_" + stamp, '_', 9);
  }

  lemma StateOfRenamed(a: Attrs, m: Attrs)
    requires StateUpdatedOf(m) == RenamedText(a)
    ensures OriginalState(m) == if OriginalState(a) == "COMPLETED" then "SUCCEEDED" else OriginalState(a)
    ensures StateTimestamp(m) == StateTimestamp(a)
  {
    if OriginalState(a) == "COMPLETED" {
      SplitSucceeded(StateTimestamp(a));
    }
  }

  /** Renaming the state keeps the time stamp and nothing is COMPLETED any more. */
  lemma MigratedState(a: Attrs)
    ensures OriginalState(Migrated(a)) == if OriginalState(a) == "COMPLETED" then "SUCCEEDED" else OriginalState(a)
    ensures StateTimestamp(Migrated(a)) == StateTimestamp(a)
  {
    MigratedText(a);
    StateOfRenamed(a, Migrated(a));
  }

  lemma ReadsState(a: Attrs, state: string, stamp: string)
    requires StateUpdatedOf(a) == state + "_" + stamp && '_' !in state
    ensures OriginalState(a) == state && StateTimestamp(a) == stamp
  {
    var su := state + "_" + stamp;
    FirstIs(su, '_', |state|);
    assert su[..|state|] == state && su[|state| + 1..] == stamp;
  }

  /** The migrated record from the text of its state: what is in front of the first underscore decides. */
  lemma MigratedByState(a: Attrs, state: string, stamp: string)
    requires StateUpdated in a && a[StateUpdated] == Text(state + "_" + stamp) && '_' !in state
    ensures var m := Migrated(a);
            && StateUpdated in m
            && m[StateUpdated] == Text(if state != "COMPLETED" then state + "_" + stamp
                                       else if stamp != "" then "SUCCEEDED_" + stamp else "SUCCEEDED")
            && (LastError in m <==> LastError in a && state == "FAILED")
            && (Outputs in m <==> Outputs in a && (state == "SUCCEEDED" || state == "COMPLETED"))
            && (ClaimedAt in m <==> ClaimedAt in a || Created in a)
            && (ClaimedAt in m ==> m[ClaimedAt] == if ClaimedAt in a then a[ClaimedAt] else a[Created])
  {
    ReadsState(a, state, stamp);
    MigratedText(a);
    MigratedAttributes(a);
  }

  lemma ApplyNothing(a: Attrs, plan: Plan)
    requires IsNoop(plan)
    ensures Apply(a, plan) == a
  {
    assert (set name | name in plan.removes) == {};
  }

  lemma MigratedIsNormal(a: Attrs)
    ensures Normal(Migrated(a))
  {
    MigratedAttributes(a);
    MigratedState(a);
  }

  /** The migration reaches the normal form in one step and is idempotent. */
  lemma MigrationNormalises(a: Attrs)
    ensures Normal(Migrated(a)) && IsNoop(BuildPlan(Migrated(a))) && Migrated(Migrated(a)) == Migrated(a)
  {
    var m := Migrated(a);
    MigratedIsNormal(a);
    NoopIffNormal(m);
    ApplyNothing(m, BuildPlan(m));
  }
}
