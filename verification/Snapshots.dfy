/** The snapshot file: the record that the daemon writes and the revert script reads. */
module Snapshots {
  import opened Addresses

  /** The identifiers of everything the daemon owns on the host. */
  datatype OurMarks = OurMarks(tunIfname: string, tableId: int, rulePriority: int)

  datatype ResolvConfState = ResolvConfState(
    existed: bool,
    backupPath: string,
    wasSymlink: bool,
    symlinkTarget: string,
    sha256Before: string)

  datatype SysctlState = SysctlState(key: string, valueBefore: string)

  datatype PreState = PreState(resolvConf: ResolvConfState, tunExisted: bool, sysctls: seq<SysctlState>)

  /** What a route leads to, in place of the text handed to the log. */
  datatype RouteSpec =
    | OnLink(dst: string, src: string)
    | DefaultVia(gateway: string)

  datatype Op =
    | OpTunCreate(ifname: string)
    | OpRouteAdd(table: int, spec: RouteSpec)
    | OpRuleAdd(priority: int, ruleTable: int, dst: Option<Cidr>)
    | OpSysctlSet(key: string, value: string)
    | OpResolvWrite(path: string, sha256After: string)

  datatype Action = Action(seqNo: int, op: Op, done: bool)

  datatype Snapshot = Snapshot(version: int, marks: OurMarks, pre: PreState, actions: seq<Action>)

  const VERSION := 1

  const ABSENT_RESOLV := ResolvConfState(false, "", false, "", "")

  /** AppendAction: the sequence number is the position in the log, counted from 1. */
  function AppendAction(s: Snapshot, op: Op, done: bool): Snapshot {
    s.(actions := s.actions + [Action(|s.actions| + 1, op, done)])
  }

  function MarkLastDone(s: Snapshot): Snapshot {
    var n := |s.actions|;
    if n == 0 then s else s.(actions := s.actions[n - 1 := s.actions[n - 1].(done := true)])
  }

  /** The snapshot after an action was logged as an intent and then confirmed. */
  function Confirmed(s: Snapshot, op: Op): Snapshot {
    MarkLastDone(AppendAction(s, op, false))
  }

  /** Priorities of the logged rule additions, in log order. */
  function RulePriorities(actions: seq<Action>): seq<int> {
    if actions == [] then []
    else (if actions[0].op.OpRuleAdd? then [actions[0].op.priority] else []) + RulePriorities(actions[1..])
  }

  /** The guard of the deletion loop: anything below 1000 belongs to the system. */
  function Guarded(ps: seq<int>): seq<int> {
    if ps == [] then []
    else (if ps[0] >= 1000 then [ps[0]] else []) + Guarded(ps[1..])
  }

  /** Every priority at which the revert deletes a rule, in the order it does so. */
  function Swept(s: Snapshot): seq<int> {
    [s.marks.rulePriority] + Guarded(RulePriorities(s.actions))
  }

  /** A well-formed log: numbered 1..n, and only the newest action may be unconfirmed. */
  predicate WellLogged(s: Snapshot) {
    && (forall i :: 0 <= i < |s.actions| ==> s.actions[i].seqNo == i + 1)
    && (forall i :: 0 <= i < |s.actions| - 1 ==> s.actions[i].done)
  }

  /** `t` has the marks and the pre-state of `s`, and repeats its log first; confirmations stay. */
  predicate Continues(s: Snapshot, t: Snapshot) {
    && t.version == s.version && t.marks == s.marks && t.pre == s.pre
    && |s.actions| <= |t.actions|
    && (forall i :: 0 <= i < |s.actions| ==>
          && t.actions[i].seqNo == s.actions[i].seqNo
          && t.actions[i].op == s.actions[i].op
          && (s.actions[i].done ==> t.actions[i].done))
  }

  /** The next version of a snapshot: it continues the old one by at most one action. */
  predicate Extends(s: Snapshot, t: Snapshot) {
    Continues(s, t) && |t.actions| <= |s.actions| + 1
  }

  /** The same snapshot with every Done flag replaced. */
  function WithDone(s: Snapshot, done: seq<bool>): Snapshot
    requires |done| == |s.actions|
  {
    s.(actions := seq(|s.actions|, i requires 0 <= i < |s.actions| => s.actions[i].(done := done[i])))
  }

  lemma {:induction false} RulePrioritiesAppend(a: seq<Action>, b: seq<Action>)
    ensures RulePriorities(a + b) == RulePriorities(a) + RulePriorities(b)
  {
    if a == [] {
      assert a + b == b;
    } else {
      assert (a + b)[1..] == a[1..] + b && (a + b)[0] == a[0];
      RulePrioritiesAppend(a[1..], b);
      var head := if a[0].op.OpRuleAdd? then [a[0].op.priority] else [];
      assert RulePriorities(a) == head + RulePriorities(a[1..]);
      assert RulePriorities(a + b) == head + RulePriorities(a[1..] + b);
    }
  }

  lemma {:induction false} GuardedAppend(a: seq<int>, b: seq<int>)
    ensures Guarded(a + b) == Guarded(a) + Guarded(b)
  {
    if a == [] {
      assert a + b == b;
    } else {
      assert (a + b)[1..] == a[1..] + b && (a + b)[0] == a[0];
      GuardedAppend(a[1..], b);
      var head := if a[0] >= 1000 then [a[0]] else [];
      assert Guarded(a) == head + Guarded(a[1..]);
      assert Guarded(a + b) == head + Guarded(a[1..] + b);
    }
  }

  lemma {:induction false} GuardedMembers(ps: seq<int>)
    ensures forall p :: p in Guarded(ps) <==> p in ps && p >= 1000
  {
    if ps != [] {
      GuardedMembers(ps[1..]);
    }
  }

  /** Done flags carry no information for the revert: only the ops do. */
  lemma {:induction false} SameOpsSamePriorities(a: seq<Action>, b: seq<Action>)
    requires |a| == |b| && forall i :: 0 <= i < |a| ==> a[i].op == b[i].op
    ensures RulePriorities(a) == RulePriorities(b)
  {
    if a != [] {
      assert a[0].op == b[0].op;
      SameOpsSamePriorities(a[1..], b[1..]);
    }
  }

  lemma SweptAppend(s: Snapshot, op: Op, done: bool)
    ensures Swept(AppendAction(s, op, done)) ==
            Swept(s) + (if op.OpRuleAdd? && op.priority >= 1000 then [op.priority] else [])
  {
    var one := [Action(|s.actions| + 1, op, done)];
    RulePrioritiesAppend(s.actions, one);
    assert one[1..] == [];
    var added := RulePriorities(one);
    assert added == if op.OpRuleAdd? then [op.priority] else [];
    GuardedAppend(RulePriorities(s.actions), added);
    assert Guarded(added) == if op.OpRuleAdd? && op.priority >= 1000 then [op.priority] else [];
  }

  lemma SweptMarkLastDone(s: Snapshot)
    ensures Swept(MarkLastDone(s)) == Swept(s)
  {
    SameOpsSamePriorities(s.actions, MarkLastDone(s).actions);
  }
}
