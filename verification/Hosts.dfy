/**
 The host as the program sees it: policy rules, routes, links, sysctls, resolv.conf,
 and the two kinds of files the daemon keeps on disk. Every system call or shell
 command is one atomic `Cmd`; a program is a sequence of them.
 */
module Hosts {
  import opened Addresses
  import opened Snapshots

  /** A policy rule. `dst == None` matches every destination. */
  datatype Rule = Rule(priority: int, table: int, dst: Option<Cidr>)

  datatype Route = Route(table: int, dev: string, spec: RouteSpec)

  datatype Resolv = Absent | Symlink(target: string) | Regular(content: string)

  datatype Host = Host(
    rules: seq<Rule>,
    routes: set<Route>,
    links: set<string>,
    sysctls: map<string, string>,
    resolv: Resolv)

  datatype SnapshotFile = Missing | Garbage | Stored(snap: Snapshot)

  datatype World = World(host: Host, snapshot: SnapshotFile, backups: map<string, string>)

  datatype Cmd =
    | Persist(snap: Snapshot)
    | RemoveSnapshot
    | TruncateBackup(path: string)
    | WriteBackup(path: string, content: string)
    | WriteSysctl(key: string, value: string)
    | CreateTun(ifname: string)
    | CloseTun(ifname: string)
    | DeleteLink(ifname: string)
    | AddRoute(route: Route)
    | FlushTable(table: int)
    | AddRule(rule: Rule)
    | DeleteRule(priority: int)
    | UnlinkResolv
    | LinkResolv(target: string)
    | CopyBackupToResolv(path: string)
    | RenameToResolv(content: string)

  /** The kernel keeps rules ordered by priority; a new rule goes behind its equals. */
  function InsertRule(rs: seq<Rule>, r: Rule): seq<Rule> {
    if rs == [] || rs[0].priority > r.priority then [r] + rs
    else [rs[0]] + InsertRule(rs[1..], r)
  }

  /** `ip rule del priority p` removes the first rule at p, if there is one. */
  function RemoveRule(rs: seq<Rule>, p: int): seq<Rule> {
    if rs == [] then []
    else if rs[0].priority == p then rs[1..]
    else [rs[0]] + RemoveRule(rs[1..], p)
  }

  /** Deleting a link takes the routes over it along. */
  function WithoutLink(h: Host, ifname: string): Host {
    h.(links := h.links - {ifname}, routes := set r | r in h.routes && r.dev != ifname)
  }

  function Apply(w: World, c: Cmd): World {
    var h := w.host;
    match c
    case Persist(s) => w.(snapshot := Stored(s))
    case RemoveSnapshot => w.(snapshot := Missing)
    case TruncateBackup(path) => w.(backups := w.backups[path := ""])
    case WriteBackup(path, content) => w.(backups := w.backups[path := content])
    case WriteSysctl(key, value) => w.(host := h.(sysctls := h.sysctls[key := value]))
    case CreateTun(ifname) => w.(host := h.(links := h.links + {ifname}))
    case CloseTun(ifname) => w.(host := WithoutLink(h, ifname))
    case DeleteLink(ifname) => w.(host := WithoutLink(h, ifname))
    case AddRoute(route) => w.(host := h.(routes := h.routes + {route}))
    case FlushTable(table) => w.(host := h.(routes := set r | r in h.routes && r.table != table))
    case AddRule(rule) => w.(host := h.(rules := InsertRule(h.rules, rule)))
    case DeleteRule(p) => w.(host := h.(rules := RemoveRule(h.rules, p)))
    case UnlinkResolv => w.(host := h.(resolv := Absent))
    case LinkResolv(target) => w.(host := h.(resolv := Symlink(target)))
    case CopyBackupToResolv(path) =>
      w.(host := h.(resolv := if path in w.backups then Regular(w.backups[path]) else h.resolv))
    case RenameToResolv(content) => w.(host := h.(resolv := Regular(content)))
  }

  /** The world after a program ran; a crash after k commands leaves Exec(w, cs[..k]). */
  function Exec(w: World, cs: seq<Cmd>): World
    decreases |cs|
  {
    if cs == [] then w else Exec(Apply(w, cs[0]), cs[1..])
  }

  lemma {:induction false} ExecAppend(w: World, a: seq<Cmd>, b: seq<Cmd>)
    ensures Exec(w, a + b) == Exec(Exec(w, a), b)
    decreases |a|
  {
    if a == [] {
      assert a + b == b;
    } else {
      assert (a + b)[1..] == a[1..] + b;
      ExecAppend(Apply(w, a[0]), a[1..], b);
    }
  }

  lemma ExecOne(w: World, c: Cmd)
    ensures Exec(w, [c]) == Apply(w, c)
  {
    assert [c][1..] == [];
  }

  lemma ExecPrefix(w: World, cs: seq<Cmd>, k: nat)
    requires 0 < k <= |cs|
    ensures Exec(w, cs[..k]) == Exec(Apply(w, cs[0]), cs[1..][..k - 1])
  {
    assert cs[..k][0] == cs[0];
    assert cs[..k][1..] == cs[1..][..k - 1];
  }

  // ---- Rule lists -------------------------------------------------------------

  predicate Sorted(rs: seq<Rule>) {
    forall i, j :: 0 <= i < j < |rs| ==> rs[i].priority <= rs[j].priority
  }

  /** How many rules sit at priority p. */
  function CountAt(rs: seq<Rule>, p: int): nat {
    if rs == [] then 0 else (if rs[0].priority == p then 1 else 0) + CountAt(rs[1..], p)
  }

  /** The rules whose priority is outside ps, in order. */
  function Outside(rs: seq<Rule>, ps: set<int>): seq<Rule> {
    if rs == [] then [] else (if rs[0].priority in ps then [] else [rs[0]]) + Outside(rs[1..], ps)
  }

  lemma {:induction false} InsertKeepsSorted(rs: seq<Rule>, r: Rule)
    requires Sorted(rs)
    ensures Sorted(InsertRule(rs, r))
    ensures forall q :: q in InsertRule(rs, r) <==> q in rs || q == r
  {
    if rs != [] && rs[0].priority <= r.priority {
      InsertKeepsSorted(rs[1..], r);
      var t := InsertRule(rs[1..], r);
      forall j | 0 <= j < |t|
        ensures rs[0].priority <= t[j].priority
      {
        assert t[j] in t;
        assert t[j] == r || t[j] in rs[1..];
      }
    }
  }

  lemma {:induction false} InsertCounts(rs: seq<Rule>, r: Rule, p: int)
    ensures CountAt(InsertRule(rs, r), p) == CountAt(rs, p) + (if r.priority == p then 1 else 0)
  {
    if rs == [] || rs[0].priority > r.priority {
      assert ([r] + rs)[1..] == rs;
    } else {
      InsertCounts(rs[1..], r, p);
    }
  }

  lemma {:induction false} InsertInside(rs: seq<Rule>, r: Rule, ps: set<int>)
    requires r.priority in ps
    ensures Outside(InsertRule(rs, r), ps) == Outside(rs, ps)
  {
    if rs == [] || rs[0].priority > r.priority {
      assert ([r] + rs)[1..] == rs;
    } else {
      InsertInside(rs[1..], r, ps);
    }
  }

  lemma {:induction false} RemoveKeepsSorted(rs: seq<Rule>, p: int)
    requires Sorted(rs)
    ensures Sorted(RemoveRule(rs, p))
    ensures forall q :: q in RemoveRule(rs, p) ==> q in rs
    ensures forall q :: q in rs && q.priority != p ==> q in RemoveRule(rs, p)
  {
    if rs != [] && rs[0].priority != p {
      RemoveKeepsSorted(rs[1..], p);
      var t := RemoveRule(rs[1..], p);
      forall j | 0 <= j < |t|
        ensures rs[0].priority <= t[j].priority
      {
        assert t[j] in t;
        assert t[j] in rs[1..];
      }
    }
  }

  lemma {:induction false} RemoveCounts(rs: seq<Rule>, p: int, q: int)
    ensures CountAt(RemoveRule(rs, p), q) ==
            if p == q && CountAt(rs, p) > 0 then CountAt(rs, q) - 1 else CountAt(rs, q)
  {
    if rs != [] && rs[0].priority != p {
      RemoveCounts(rs[1..], p, q);
    }
  }

  lemma {:induction false} RemoveInside(rs: seq<Rule>, p: int, ps: set<int>)
    requires p in ps
    ensures Outside(RemoveRule(rs, p), ps) == Outside(rs, ps)
  {
    if rs != [] && rs[0].priority != p {
      RemoveInside(rs[1..], p, ps);
    }
  }

  lemma {:induction false} NothingInside(rs: seq<Rule>, ps: set<int>)
    requires forall p :: p in ps ==> CountAt(rs, p) == 0
    ensures Outside(rs, ps) == rs
  {
    if rs != [] {
      assert CountAt(rs, rs[0].priority) > 0;
      forall p | p in ps
        ensures CountAt(rs[1..], p) == 0
      {
        assert CountAt(rs, p) == 0;
      }
      NothingInside(rs[1..], ps);
    }
  }

  lemma {:induction false} CountZero(rs: seq<Rule>, p: int)
    ensures CountAt(rs, p) == 0 <==> forall r :: r in rs ==> r.priority != p
  {
    if rs != [] {
      CountZero(rs[1..], p);
      assert forall r :: r in rs <==> r == rs[0] || r in rs[1..];
    }
  }

  lemma {:induction false} OutsideMembers(rs: seq<Rule>, ps: set<int>)
    ensures forall r :: r in Outside(rs, ps) <==> r in rs && r.priority !in ps
  {
    if rs != [] {
      OutsideMembers(rs[1..], ps);
      assert forall r :: r in rs <==> r == rs[0] || r in rs[1..];
    }
  }
}
