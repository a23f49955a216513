/** `update_group` (src/mycoagent/manager/store.py) reads a group's policy under one lock
    hold and writes it back, patched, under another: what calls in between can change. */
module PolicyUpdates {
  import opened Models
  import opened Manager

  datatype PolicyPatch = PolicyPatch(
    description: Option<string>,
    joinMode: Option<JoinMode>,
    allowRegister: Option<seq<string>>,
    allowParent: Option<seq<string>>)

  function Or<T>(patch: Option<T>, current: T): T {
    if patch.Some? then patch.value else current
  }

  function Patched(row: GroupRow, patch: PolicyPatch): GroupRow {
    row.(description := Or(patch.description, row.description),
         joinMode := Or(patch.joinMode, row.joinMode),
         allowRegister := Or(patch.allowRegister, row.allowRegister),
         allowParent := Or(patch.allowParent, row.allowParent))
  }

  /** The steps of an update are done one after the other: what was read is patched and
      written when the steps of other calls in between have run. */
  function Interleaved(st: State, between: seq<Step>, name: string, patch: PolicyPatch, timeout: nat): State
    requires StepsOk(between, timeout) && name in st.groups
  {
    Run(st, between + [PolicyStep(name, Patched(st.groups[name], patch))], timeout)
  }

  /** What the same update would do if it read where it writes. */
  function Atomic(st: State, name: string, patch: PolicyPatch): State {
    if name in st.groups then WritePolicy(st, name, Patched(st.groups[name], patch)) else st
  }

  lemma RunPush(st: State, steps: seq<Step>, s: Step, timeout: nat)
    requires StepsOk(steps, timeout) && StepOk(s, timeout)
    ensures StepsOk(steps + [s], timeout)
    ensures Run(st, steps + [s], timeout) == Apply(Run(st, steps, timeout), s, timeout)
  {
    assert (steps + [s])[..|steps + [s]| - 1] == steps;
  }

  /** Every field that the patch leaves out is what was read. */
  predicate LeftOutKept(read: GroupRow, now: GroupRow, patch: PolicyPatch) {
    && (patch.description.None? ==> now.description == read.description)
    && (patch.joinMode.None? ==> now.joinMode == read.joinMode)
    && (patch.allowRegister.None? ==> now.allowRegister == read.allowRegister)
    && (patch.allowParent.None? ==> now.allowParent == read.allowParent)
  }

  /** For all steps in between: when the group has gone, nothing is written. Otherwise the
      update has its atomic effect if and only if, when it writes, each field that it
      leaves out is as it was read; that the group was deleted and created again does not
      matter. */
  lemma UpdateIsAtomicIff(st: State, between: seq<Step>, name: string, patch: PolicyPatch, timeout: nat)
    requires StepsOk(between, timeout) && name in st.groups
    ensures var now, end := Run(st, between, timeout), Interleaved(st, between, name, patch, timeout);
            if name !in now.groups then end == now
            else end == Atomic(now, name, patch) <==> LeftOutKept(st.groups[name], now.groups[name], patch)
  {
    hide Run;
    var now := Run(st, between, timeout);
    var written := Patched(st.groups[name], patch);
    RunPush(st, between, PolicyStep(name, written), timeout);
    if name in now.groups && WritePolicy(now, name, written) == Atomic(now, name, patch) {
      assert WritePolicy(now, name, written).groups[name] == Atomic(now, name, patch).groups[name];
    }
  }

  // ----- when nothing is lost

  predicate Touches(s: Step, name: string) {
    (s.PolicyStep? || s.DeleteStep?) && s.name == name
  }

  lemma OnlyTouchingChanges(st: State, s: Step, name: string, timeout: nat)
    requires StepOk(s, timeout) && name in st.groups && !Touches(s, name)
    ensures name in Apply(st, s, timeout).groups && Apply(st, s, timeout).groups[name] == st.groups[name]
  {
    hide Cutoff;
  }

  lemma {:induction false} PolicyStays(st: State, steps: seq<Step>, name: string, timeout: nat)
    requires StepsOk(steps, timeout) && name in st.groups
    requires forall i :: 0 <= i < |steps| ==> !Touches(steps[i], name)
    ensures name in Run(st, steps, timeout).groups && Run(st, steps, timeout).groups[name] == st.groups[name]
  {
    hide Apply;
    if steps != [] {
      var front := steps[..|steps| - 1];
      assert StepsOk(front, timeout);
      PolicyStays(st, front, name, timeout);
      OnlyTouchingChanges(Run(st, front, timeout), steps[|steps| - 1], name, timeout);
    }
  }

  /** Unless another update or a deletion of the same group comes in between, the update
      is atomic, whatever else runs. */
  lemma UndisturbedUpdateIsAtomic(st: State, between: seq<Step>, name: string, patch: PolicyPatch, timeout: nat)
    requires StepsOk(between, timeout) && name in st.groups
    requires forall i :: 0 <= i < |between| ==> !Touches(between[i], name)
    ensures Interleaved(st, between, name, patch, timeout) == Atomic(Run(st, between, timeout), name, patch)
  {
    hide Run, Interleaved, Atomic;
    PolicyStays(st, between, name, timeout);
    UpdateIsAtomicIff(st, between, name, patch, timeout);
  }

  // ----- when an update is lost

  /** Two updates of one group read the same row; the one that writes last takes back every
      field that it leaves out, and sets those that it names. */
  lemma LastWriteTakesBack(st: State, name: string, first: PolicyPatch, last: PolicyPatch, timeout: nat)
    requires name in st.groups
    ensures var row := st.groups[name];
            var other := PolicyStep(name, Patched(row, first));
            var end := Interleaved(st, [other], name, last, timeout);
            && name in end.groups && end.groups[name] == Patched(row, last)
            && (last.description.None? ==> end.groups[name].description == row.description)
            && (last.joinMode.None? ==> end.groups[name].joinMode == row.joinMode)
            && (last.allowRegister.None? ==> end.groups[name].allowRegister == row.allowRegister)
            && (last.allowParent.None? ==> end.groups[name].allowParent == row.allowParent)
            && (last.description.Some? ==> end.groups[name].description == last.description.value)
            && (last.joinMode.Some? ==> end.groups[name].joinMode == last.joinMode.value)
            && (last.allowRegister.Some? ==> end.groups[name].allowRegister == last.allowRegister.value)
            && (last.allowParent.Some? ==> end.groups[name].allowParent == last.allowParent.value)
            && end.groups[name].createdAt == row.createdAt
  {
    var row := st.groups[name];
    var other, own := PolicyStep(name, Patched(row, first)), PolicyStep(name, Patched(row, last));
    RunPush(st, [], other, timeout);
    assert [] + [other] == [other];
    RunPush(st, [other], own, timeout);
  }

  const OPEN := GroupRow("", "", Auto, [], [])
  const CLOSE := PolicyPatch(None, Some(Manual), None, None)
  const DESCRIBE := PolicyPatch(Some("new"), None, None, None)

  /** The group is to be closed and, at the same time, described: it ends described and
      open, though each call alone, and either order of the two, would leave it closed. */
  lemma CloseIsLost()
    ensures var st := State(map["g" := OPEN], map[]);
            var end := Interleaved(st, [PolicyStep("g", Patched(OPEN, CLOSE))], "g", DESCRIBE, 0);
            && "g" in end.groups && end.groups["g"] == OPEN.(description := "new")
            && Atomic(Atomic(st, "g", CLOSE), "g", DESCRIBE) == Atomic(Atomic(st, "g", DESCRIBE), "g", CLOSE)
            && Atomic(Atomic(st, "g", CLOSE), "g", DESCRIBE).groups
               == map["g" := OPEN.(description := "new", joinMode := Manual)]
  {
    var st := State(map["g" := OPEN], map[]);
    LastWriteTakesBack(st, "g", CLOSE, DESCRIBE, 0);
  }
}
