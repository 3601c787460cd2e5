/**
 The meaning of the installed policy rules: which routing table the kernel consults for a
 destination. A rule that sends a packet to a table is taken to settle the matter, except
 for the kernel's local table, which only answers for the host's own addresses.
 */
module Routing {
  import opened Addresses
  import opened Snapshots
  import opened Hosts
  import opened Config

  const MAIN_TABLE := 254
  const LOCAL_TABLE := 255
  const LOCAL_RULE := Rule(0, LOCAL_TABLE, None)

  /** The kernel's own rules: local, main, default. */
  const KERNEL_RULES := [LOCAL_RULE, Rule(32766, MAIN_TABLE, None), Rule(32767, 253, None)]

  function BypassCidrs(server: IPv4): (blocks: seq<Cidr>)
    ensures |blocks| == BYPASS_COUNT
  {
    [Cidr(server, 32),
     Cidr(Dotted(10, 0, 0, 0), 8),
     Cidr(Dotted(172, 16, 0, 0), 12),
     Cidr(Dotted(192, 168, 0, 0), 16),
     Cidr(Dotted(127, 0, 0, 0), 8),
     Cidr(Dotted(169, 254, 0, 0), 16),
     Cidr(Dotted(224, 0, 0, 0), 4)]
  }

  function Bypass(base: int, server: IPv4, i: int): Rule
    requires 0 <= i < BYPASS_COUNT
  {
    Rule(base - BYPASS_COUNT + i, MAIN_TABLE, Some(BypassCidrs(server)[i]))
  }

  function Catchall(m: OurMarks): Rule {
    Rule(m.rulePriority, m.tableId, None)
  }

  /** The eight rules of a session, in the order they are installed. */
  function Installed(m: OurMarks, server: IPv4): (rs: seq<Rule>)
    ensures |rs| == BYPASS_COUNT + 1
  {
    seq(BYPASS_COUNT, i requires 0 <= i < BYPASS_COUNT => Bypass(m.rulePriority, server, i)) + [Catchall(m)]
  }

  function InsertAll(rs: seq<Rule>, more: seq<Rule>): seq<Rule>
    decreases |more|
  {
    if more == [] then rs else InsertAll(InsertRule(rs, more[0]), more[1..])
  }

  predicate Applies(r: Rule, local: IPv4 -> bool, dst: IPv4) {
    && (r.dst.Some? ==> Contains(r.dst.value, dst))
    && (r.table == LOCAL_TABLE ==> local(dst))
  }

  /** The table of the first rule that applies. */
  function Select(rs: seq<Rule>, local: IPv4 -> bool, dst: IPv4): Option<int> {
    if rs == [] then None
    else if Applies(rs[0], local, dst) then Some(rs[0].table)
    else Select(rs[1..], local, dst)
  }

  /** The destinations that must stay off the tunnel, read off the dotted form. */
  predicate Bypassed(server: IPv4, dst: IPv4) {
    var a, b := OctetAt(dst, 0), OctetAt(dst, 1);
    || dst == server
    || a == 10
    || (a == 172 && 16 <= b < 32)
    || (a == 192 && b == 168)
    || a == 127
    || (a == 169 && b == 254)
    || 224 <= a < 240
  }

  /** What the routing is for. */
  function Classify(m: OurMarks, server: IPv4, local: IPv4 -> bool, dst: IPv4): int {
    if local(dst) then LOCAL_TABLE
    else if Bypassed(server, dst) then MAIN_TABLE
    else m.tableId
  }

  lemma SixteenBitPrefix(a: Octet, b: Octet, dst: IPv4)
    ensures Contains(Cidr(Dotted(a, b, 0, 0), 16), dst) <==> OctetAt(dst, 0) == a && OctetAt(dst, 1) == b
  {
    Spans();
  }

  lemma EightBitPrefix(a: Octet, dst: IPv4)
    ensures Contains(Cidr(Dotted(a, 0, 0, 0), 8), dst) <==> OctetAt(dst, 0) == a
  {
    Spans();
  }

  lemma OddPrefixes(server: IPv4, dst: IPv4)
    ensures Contains(Cidr(server, 32), dst) <==> dst == server
    ensures Contains(Cidr(Dotted(172, 16, 0, 0), 12), dst) <==> OctetAt(dst, 0) == 172 && 16 <= OctetAt(dst, 1) < 32
    ensures Contains(Cidr(Dotted(224, 0, 0, 0), 4), dst) <==> 224 <= OctetAt(dst, 0) < 240
  {
    Spans();
  }

  /** The seven prefixes cover exactly the destinations that must be bypassed. */
  lemma PrefixesAreBypass(server: IPv4, dst: IPv4)
    ensures (exists i :: 0 <= i < BYPASS_COUNT && Contains(BypassCidrs(server)[i], dst)) <==> Bypassed(server, dst)
  {
    var blocks := BypassCidrs(server);
    OddPrefixes(server, dst);
    EightBitPrefix(10, dst);
    EightBitPrefix(127, dst);
    SixteenBitPrefix(192, 168, dst);
    SixteenBitPrefix(169, 254, dst);
    assert (exists i :: 0 <= i < BYPASS_COUNT && Contains(blocks[i], dst)) <==>
      Contains(blocks[0], dst) || Contains(blocks[1], dst) || Contains(blocks[2], dst) || Contains(blocks[3], dst)
      || Contains(blocks[4], dst) || Contains(blocks[5], dst) || Contains(blocks[6], dst);
  }

  /** In a sorted list, an applicable rule below every other applicable one decides. */
  lemma {:induction false} LowestDecides(rs: seq<Rule>, local: IPv4 -> bool, dst: IPv4, r: Rule)
    requires Sorted(rs) && r in rs && Applies(r, local, dst)
    requires forall q :: q in rs && q != r && Applies(q, local, dst) ==> q.priority > r.priority
    ensures Select(rs, local, dst) == Some(r.table)
  {
    if rs[0] != r {
      var k :| 0 <= k < |rs| && rs[k] == r;
      assert rs[0].priority <= rs[k].priority;
      assert !Applies(rs[0], local, dst);
      LowestDecides(rs[1..], local, dst, r);
    }
  }

  /** If some applicable rule lies below every rule for `table`, that table is not selected. */
  lemma {:induction false} BelowExcludes(rs: seq<Rule>, local: IPv4 -> bool, dst: IPv4, r: Rule, table: int)
    requires Sorted(rs) && r in rs && Applies(r, local, dst) && r.table != table
    requires forall q :: q in rs && q.table == table ==> q.priority > r.priority
    ensures Select(rs, local, dst).Some? && Select(rs, local, dst) != Some(table)
  {
    var k :| 0 <= k < |rs| && rs[k] == r;
    assert rs[0].priority <= rs[k].priority;
    if !Applies(rs[0], local, dst) {
      BelowExcludes(rs[1..], local, dst, r, table);
    }
  }

  lemma {:induction false} NeverSelected(rs: seq<Rule>, local: IPv4 -> bool, dst: IPv4, table: int)
    requires forall q :: q in rs ==> q.table != table
    ensures Select(rs, local, dst) != Some(table)
  {
    if rs != [] && !Applies(rs[0], local, dst) {
      NeverSelected(rs[1..], local, dst, table);
    }
  }

  lemma {:induction false} InsertAllMembers(rs: seq<Rule>, more: seq<Rule>)
    requires Sorted(rs)
    ensures Sorted(InsertAll(rs, more))
    ensures forall q :: q in InsertAll(rs, more) <==> q in rs || q in more
    decreases |more|
  {
    if more != [] {
      InsertKeepsSorted(rs, more[0]);
      InsertAllMembers(InsertRule(rs, more[0]), more[1..]);
      assert forall q :: q in more <==> q == more[0] || q in more[1..];
    }
  }

  lemma InstalledShape(m: OurMarks, server: IPv4, q: Rule)
    requires q in Installed(m, server)
    ensures q == Catchall(m) || exists i :: 0 <= i < BYPASS_COUNT && q == Bypass(m.rulePriority, server, i)
  {
  }

  /**
   On any rule list whose only rule at or below the catchall is the kernel's local one, the
   eight rules implement the classifier for every destination.
   */
  lemma InstalledClassifies(rs: seq<Rule>, m: OurMarks, server: IPv4, local: IPv4 -> bool, dst: IPv4)
    requires Sorted(rs) && LOCAL_RULE in rs
    requires forall q :: q in rs && q != LOCAL_RULE ==> q.priority > m.rulePriority
    requires m.rulePriority > BYPASS_COUNT && m.tableId != LOCAL_TABLE
    ensures Select(InsertAll(rs, Installed(m, server)), local, dst) == Some(Classify(m, server, local, dst))
  {
    var ours := Installed(m, server);
    var all := InsertAll(rs, ours);
    InsertAllMembers(rs, ours);
    forall q | q in ours
      ensures 0 < q.priority <= m.rulePriority
    {
      InstalledShape(m, server, q);
    }
    if local(dst) {
      LowestDecides(all, local, dst, LOCAL_RULE);
    } else {
      assert !Applies(LOCAL_RULE, local, dst);
      PrefixesAreBypass(server, dst);
      if Bypassed(server, dst) {
        FirstBypassDecides(rs, m, server, local, dst);
      } else {
        assert ours[BYPASS_COUNT] == Catchall(m);
        forall q | q in all && q != Catchall(m) && Applies(q, local, dst)
          ensures q.priority > m.rulePriority
        {
          if q in ours {
            InstalledShape(m, server, q);
          }
        }
        LowestDecides(all, local, dst, Catchall(m));
      }
    }
  }

  /** The lowest of the seven prefixes that cover dst. */
  lemma {:induction false} FirstCovering(server: IPv4, dst: IPv4, from: nat) returns (i: nat)
    requires exists j :: from <= j < BYPASS_COUNT && Contains(BypassCidrs(server)[j], dst)
    ensures from <= i < BYPASS_COUNT && Contains(BypassCidrs(server)[i], dst)
    ensures forall j :: from <= j < i ==> !Contains(BypassCidrs(server)[j], dst)
    decreases BYPASS_COUNT - from
  {
    if Contains(BypassCidrs(server)[from], dst) {
      i := from;
    } else {
      i := FirstCovering(server, dst, from + 1);
    }
  }

  lemma FirstBypassDecides(rs: seq<Rule>, m: OurMarks, server: IPv4, local: IPv4 -> bool, dst: IPv4)
    requires Sorted(rs) && !local(dst)
    requires forall q :: q in rs && q != LOCAL_RULE ==> q.priority > m.rulePriority
    requires Bypassed(server, dst)
    ensures Select(InsertAll(rs, Installed(m, server)), local, dst) == Some(MAIN_TABLE)
  {
    var ours := Installed(m, server);
    InsertAllMembers(rs, ours);
    PrefixesAreBypass(server, dst);
    var i := FirstCovering(server, dst, 0);
    var r := Bypass(m.rulePriority, server, i);
    assert ours[i] == r;
    forall q | q in InsertAll(rs, ours) && q != r && Applies(q, local, dst)
      ensures q.priority > r.priority
    {
      if q in ours {
        InstalledShape(m, server, q);
      }
    }
    LowestDecides(InsertAll(rs, ours), local, dst, r);
  }

  /**
   Over the kernel's own rules, the classifier is implemented for all destinations exactly
   when the catchall comes before the kernel's main rule. `probe` is any destination that
   ought to be tunnelled.
   */
  lemma RoutingRefinement(m: OurMarks, server: IPv4, local: IPv4 -> bool, probe: IPv4)
    requires m.rulePriority > BYPASS_COUNT && m.tableId !in {253, MAIN_TABLE, LOCAL_TABLE}
    requires !local(probe) && !Bypassed(server, probe)
    ensures (forall dst: IPv4 ::
               Select(InsertAll(KERNEL_RULES, Installed(m, server)), local, dst) == Some(Classify(m, server, local, dst)))
            <==> m.rulePriority < 32766
  {
    var all := InsertAll(KERNEL_RULES, Installed(m, server));
    if m.rulePriority < 32766 {
      forall dst: IPv4
        ensures Select(all, local, dst) == Some(Classify(m, server, local, dst))
      {
        InstalledClassifies(KERNEL_RULES, m, server, local, dst);
      }
    } else {
      InsertAllMembers(KERNEL_RULES, Installed(m, server));
      assert KERNEL_RULES[1] in KERNEL_RULES;
      MainShadows(m, server, local, probe);
    }
  }

  /** A catchall at or above 32766 sits behind the kernel's main rule and is never reached. */
  lemma MainShadows(m: OurMarks, server: IPv4, local: IPv4 -> bool, probe: IPv4)
    requires m.rulePriority >= 32766 && m.tableId !in {253, MAIN_TABLE, LOCAL_TABLE}
    ensures Select(InsertAll(KERNEL_RULES, Installed(m, server)), local, probe) != Some(m.tableId)
  {
    var ours := Installed(m, server);
    var bypasses := ours[..BYPASS_COUNT];
    assert ours == bypasses + [Catchall(m)];
    InsertAllSplit(KERNEL_RULES, bypasses, Catchall(m));
    var before := InsertAll(KERNEL_RULES, bypasses);
    InsertAllMembers(KERNEL_RULES, bypasses);
    assert KERNEL_RULES[1] in before;
    assert forall q :: q in bypasses ==> q.table == MAIN_TABLE;
    InsertBehind(before, Catchall(m), local, probe, KERNEL_RULES[1]);
    NeverSelected(before, local, probe, m.tableId);
  }

  lemma {:induction false} InsertAllSplit(rs: seq<Rule>, more: seq<Rule>, last: Rule)
    ensures InsertAll(rs, more + [last]) == InsertRule(InsertAll(rs, more), last)
    decreases |more|
  {
    if more == [] {
      assert [last][1..] == [];
      assert more + [last] == [last];
    } else {
      assert (more + [last])[1..] == more[1..] + [last];
      InsertAllSplit(InsertRule(rs, more[0]), more[1..], last);
    }
  }

  /** A rule that goes behind an applicable one changes nothing for that destination. */
  lemma {:induction false} InsertBehind(rs: seq<Rule>, r: Rule, local: IPv4 -> bool, dst: IPv4, ahead: Rule)
    requires ahead in rs && Applies(ahead, local, dst) && ahead.priority <= r.priority && Sorted(rs)
    ensures Select(InsertRule(rs, r), local, dst) == Select(rs, local, dst)
  {
    var k :| 0 <= k < |rs| && rs[k] == ahead;
    assert rs[0].priority <= rs[k].priority;
    if !Applies(rs[0], local, dst) {
      InsertBehind(rs[1..], r, local, dst, ahead);
    }
  }

  /** The eight priorities are the window, strictly increasing, with the catchall on top. */
  lemma PriorityWindow(m: OurMarks, server: IPv4)
    ensures forall i, j :: 0 <= i < j <= BYPASS_COUNT ==>
              Installed(m, server)[i].priority < Installed(m, server)[j].priority
    ensures forall p :: InWindow(m.rulePriority, p) <==>
              exists i :: 0 <= i <= BYPASS_COUNT && Installed(m, server)[i].priority == p
    ensures (forall i :: 0 <= i <= BYPASS_COUNT ==> Installed(m, server)[i].priority >= 1000)
            <==> m.rulePriority >= 1007
  {
    var ours := Installed(m, server);
    assert forall i :: 0 <= i <= BYPASS_COUNT ==> ours[i].priority == m.rulePriority - BYPASS_COUNT + i;
    forall p | InWindow(m.rulePriority, p)
      ensures exists i :: 0 <= i <= BYPASS_COUNT && ours[i].priority == p
    {
      assert ours[p - m.rulePriority + BYPASS_COUNT].priority == p;
    }
    assert ours[0].priority == m.rulePriority - 7;
  }
}
