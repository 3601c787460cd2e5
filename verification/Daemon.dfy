/**
 The daemon as a state machine over requests, crashes and outside runs of the revert
 script, and what holds over every finite sequence of them. Requests are handled one at a time.
 */
module Daemon {
  import opened Addresses
  import opened Hosts
  import opened Panic
  import opened Config
  import opened Discipline
  import opened Recovery
  import opened StartProgram
  import opened StartSafety
  import opened KeyStates

  /** What one daemon is started with, and the two foreign functions it calls. */
  datatype Setup = Setup(
    hash: string -> string,
    unescape: string -> Option<string>,
    stateDir: string,
    resolvPath: string)

  /** The running session: the URL it was started with and the address that resolved to. */
  datatype Live = Live(url: string, server: IPv4)

  datatype Sys = Sys(world: World, keys: State, session: Option<Live>, sessKey: string)

  datatype Request =
    | AddKey(url: string, suggested: string, addNow: int, addIo: bool)
    | RemoveKey(name: string, removeIo: bool)
    | RenameKey(oldName: string, newName: string, renameIo: bool)
    | UseKey(useName: string, useIo: bool)
    | Connect(keyName: string, close: PanicPlan, start: StartPlan, now: int, markIo: bool)
    | Disconnect(plan: PanicPlan)
    | Undo(plan: PanicPlan)
    | Shutdown(plan: PanicPlan)

  function SettingsFor(d: Setup, url: string): Settings {
    DaemonSettings(url, d.stateDir, d.resolvPath)
  }

  function TunName(d: Setup): string {
    SettingsFor(d, "").tunName
  }

  /** The key a connect request means: the named one, or the active one. */
  function Target(s: Sys, name: string): string {
    if name == "" then s.keys.mem.active else name
  }

  function URLOf(keys: seq<Key>, name: string): string {
    FoundWhenPresent(keys, name);
    if Has(keys, name) then keys[Find(keys, name)].url else ""
  }

  /** A connect gets as far as touching the host. */
  predicate ConnectActs(s: Sys, name: string) {
    var target := Target(s, name);
    target != "" && Has(s.keys.mem.keys, target) && !(s.session.Some? && s.sessKey == target)
  }

  function CloseFor(d: Setup, s: Sys, plan: PanicPlan): seq<Cmd> {
    if s.session.Some? then CloseCmds(d.hash, TunName(d), s.world, plan) else []
  }

  predicate CloseSucceeds(d: Setup, s: Sys, plan: PanicPlan) {
    s.session.Some? ==> CloseExit(d.hash, TunName(d), s.world, plan) == 0
  }

  /** A connect gets as far as calling Start. */
  predicate StartCalled(d: Setup, s: Sys, name: string, close: PanicPlan) {
    && ConnectActs(s, name) && CloseSucceeds(d, s, close)
    && Validate(SettingsFor(d, URLOf(s.keys.mem.keys, Target(s, name)))) == Accepted
  }

  /** A connect that only a failing environment can still stop. */
  predicate StartAdmitted(d: Setup, s: Sys, name: string, close: PanicPlan) {
    && StartCalled(d, s, name, close)
    && Admitted(SettingsFor(d, URLOf(s.keys.mem.keys, Target(s, name))), Exec(s.world, CloseFor(d, s, close)))
  }

  function StartFor(d: Setup, s: Sys, name: string, close: PanicPlan, start: StartPlan): seq<Cmd> {
    if StartCalled(d, s, name, close) then
      StartCmds(d.hash, SettingsFor(d, URLOf(s.keys.mem.keys, Target(s, name))), Exec(s.world, CloseFor(d, s, close)), start)
    else []
  }

  predicate ConnectSucceeds(d: Setup, s: Sys, name: string, close: PanicPlan, start: StartPlan) {
    && StartCalled(d, s, name, close)
    && Succeeds(d.hash, SettingsFor(d, URLOf(s.keys.mem.keys, Target(s, name))), Exec(s.world, CloseFor(d, s, close)), start)
  }

  function UndoCmds(d: Setup, s: Sys, plan: PanicPlan): seq<Cmd> {
    if s.session.Some? then CloseFor(d, s, plan) else RunScript(d.hash, s.world, plan).cmds
  }

  /** Every command a request makes the daemon issue. */
  function HostCmds(d: Setup, s: Sys, req: Request): seq<Cmd> {
    match req
    case Connect(name, close, start, _, _) =>
      if ConnectActs(s, name) then CloseFor(d, s, close) + StartFor(d, s, name, close, start) else []
    case Disconnect(plan) => CloseFor(d, s, plan)
    case Undo(plan) => UndoCmds(d, s, plan)
    case Shutdown(plan) => CloseFor(d, s, plan)
    case _ => []
  }

  /** The key operation behind a request. */
  function KeyOpOf(req: Request): KeyOp
    requires req.AddKey? || req.RemoveKey? || req.RenameKey? || req.UseKey?
  {
    match req
    case AddKey(url, suggested, now, io) => Add(url, suggested, now, io)
    case RemoveKey(name, io) => Remove(name, io)
    case RenameKey(oldName, newName, io) => Rename(oldName, newName, io)
    case UseKey(name, io) => Use(name, io)
  }

  /** A key list as it is read back when the daemon starts. */
  function Reloaded(s: State): State {
    State(OnFile(s), s.file)
  }

  function KeysAfter(d: Setup, s: Sys, req: Request): State {
    match req
    case Connect(name, close, start, now, io) =>
      if ConnectSucceeds(d, s, name, close, start) then Step(d.unescape, s.keys, MarkConnected(Target(s, name), now, io))
      else s.keys
    case RemoveKey(name, _) => if s.sessKey == name then s.keys else Step(d.unescape, s.keys, KeyOpOf(req))
    case AddKey(_, _, _, _) => Step(d.unescape, s.keys, KeyOpOf(req))
    case RenameKey(_, _, _) => Step(d.unescape, s.keys, KeyOpOf(req))
    case UseKey(_, _) => Step(d.unescape, s.keys, KeyOpOf(req))
    case Shutdown(_) => Reloaded(s.keys)
    case _ => s.keys
  }

  function SessionAfter(d: Setup, s: Sys, req: Request): Option<Live> {
    match req
    case Connect(name, close, start, _, _) =>
      if ConnectSucceeds(d, s, name, close, start) then Some(Live(URLOf(s.keys.mem.keys, Target(s, name)), start.server))
      else if ConnectActs(s, name) then None
      else s.session
    case Disconnect(_) => None
    case Undo(_) => None
    case Shutdown(_) => None
    case _ => s.session
  }

  function SessKeyAfter(d: Setup, s: Sys, req: Request): string {
    match req
    case Connect(name, close, start, _, _) =>
      if ConnectSucceeds(d, s, name, close, start) then Target(s, name)
      else if ConnectActs(s, name) then ""
      else s.sessKey
    case Disconnect(_) => ""
    case Undo(_) => ""
    case Shutdown(_) => ""
    case RenameKey(oldName, newName, _) =>
      if Outcome(d.unescape, s.keys.mem, KeyOpOf(req)) == Done && s.sessKey == oldName then newName else s.sessKey
    case _ => s.sessKey
  }

  function Served(d: Setup, s: Sys, req: Request): Sys {
    Sys(Exec(s.world, HostCmds(d, s, req)), KeysAfter(d, s, req), SessionAfter(d, s, req), SessKeyAfter(d, s, req))
  }

  /** Whether the daemon answers a request with success. */
  predicate Accepts(d: Setup, s: Sys, req: Request) {
    match req
    case Connect(name, close, start, _, _) =>
      var target := Target(s, name);
      && target != "" && Has(s.keys.mem.keys, target)
      && ((s.session.Some? && s.sessKey == target) || ConnectSucceeds(d, s, name, close, start))
    case Disconnect(plan) => s.session.Some? && CloseSucceeds(d, s, plan)
    case Undo(plan) =>
      if s.session.Some? then CloseSucceeds(d, s, plan) else RunScript(d.hash, s.world, plan).exit == 0
    case Shutdown(plan) => CloseSucceeds(d, s, plan)
    case RemoveKey(name, _) => s.sessKey != name && Outcome(d.unescape, s.keys.mem, KeyOpOf(req)) == Done
    case AddKey(_, _, _, _) => Outcome(d.unescape, s.keys.mem, KeyOpOf(req)) == Done
    case RenameKey(_, _, _) => Outcome(d.unescape, s.keys.mem, KeyOpOf(req)) == Done
    case UseKey(_, _) => Outcome(d.unescape, s.keys.mem, KeyOpOf(req)) == Done
  }

  datatype StatusView = StatusView(connected: bool, keyName: string, dirtySnapshot: bool)

  function StatusOf(s: Sys): StatusView {
    StatusView(
      s.session.Some?,
      if s.session.Some? then s.sessKey else "",
      !s.world.snapshot.Missing? && s.session.None?)
  }

  /**
   What can happen: a request is served; the daemon dies after any number of the commands
   of a request and is started again; the machine loses power at such a point and boots; or
   somebody runs the script, to its end or cut short.
   */
  datatype Event =
    | Serve(req: Request)
    | Crash(during: Request, after: nat)
    | PowerLoss(during: Request, after: nat)
    | Script(faults: Faults, cut: nat)

  function DeadWorld(d: Setup, s: Sys, req: Request, k: nat): World {
    Apply(Exec(s.world, Cut(HostCmds(d, s, req), k)), CloseTun(TunName(d)))
  }

  /** Booting sets up everything anew except for the files: resolv.conf stays as it was. */
  function Booted(base: Host, w: World): World {
    w.(host := base.(resolv := w.host.resolv))
  }

  /** `base` is the host as it was before the first connect, and as booting sets it up. */
  function Next(d: Setup, base: Host, s: Sys, e: Event): Sys {
    match e
    case Serve(req) => Served(d, s, req)
    case Crash(req, k) =>
      Sys(DeadWorld(d, s, req, k), Reloaded(s.keys), None, "")
    case PowerLoss(req, k) =>
      Sys(Booted(base, Exec(s.world, Cut(HostCmds(d, s, req), k))), Reloaded(s.keys), None, "")
    case Script(f, k) => s.(world := Exec(s.world, Cut(ScriptRun(d.hash, s.world, f).cmds, k)))
  }

  function After(d: Setup, base: Host, s: Sys, events: seq<Event>): Sys
    decreases |events|
  {
    if events == [] then s else After(d, base, Next(d, base, s, events[0]), events[1..])
  }

  // ---- The invariant ---------------------------------------------------------------

  function ScopeFor(d: Setup, base: Host, server: IPv4): Scope {
    ScopeOf(d.hash, SettingsFor(d, ""), base, server)
  }

  /** The assumptions about host and flags that nobody checks. */
  predicate HostOk(d: Setup, base: Host) {
    BaselineOk(ScopeFor(d, base, 0)) && FilesApart(SettingsFor(d, ""), base.resolv)
  }

  lemma AnyServer(d: Setup, base: Host, server: IPv4)
    requires HostOk(d, base)
    ensures BaselineOk(ScopeFor(d, base, server))
    ensures Revertible(ScopeFor(d, base, server).marks)
    ensures ScopeFor(d, base, server).marks.tunIfname == TunName(d)
  {
    DefaultNameAllowed();
  }

  lemma AnyURL(d: Setup, base: Host, server: IPv4, url: string)
    ensures ScopeFor(d, base, server) == ScopeOf(d.hash, SettingsFor(d, url), base, server)
  {
  }

  predicate SafeWith(d: Setup, base: Host, server: IPv4, w: World)
    requires HostOk(d, base)
  {
    AnyServer(d, base, server);
    Safe(ScopeFor(d, base, server), w)
  }

  /** Session and key list agree. */
  predicate SessionOk(s: Sys) {
    && (s.session.None? <==> s.sessKey == "")
    && (s.session.Some? ==> HasKey(s.keys.mem.keys, s.sessKey, s.session.value.url))
  }

  ghost predicate SysOk(d: Setup, base: Host, s: Sys)
    requires HostOk(d, base)
  {
    && StateOk(s.keys)
    && SessionOk(s)
    && (exists server: IPv4 :: SafeWith(d, base, server, s.world))
    && (s.session.Some? ==> SafeWith(d, base, s.session.value.server, s.world))
  }

  // ---- Host side ---------------------------------------------------------------------

  /** Running the script, found or not, is disciplined; verdict 0 means restored. */
  lemma ScriptDisciplined(d: Setup, base: Host, server: IPv4, w: World, plan: PanicPlan)
    requires HostOk(d, base) && SafeWith(d, base, server, w)
    ensures BaselineOk(ScopeFor(d, base, server))
    ensures var run := RunScript(d.hash, w, plan);
            && Disciplined(ScopeFor(d, base, server), w, run.cmds)
            && (run.exit == 0 ==> Exec(w, run.cmds).host == base)
            && (run.exit == 0 && !plan.faults.snapshotRemove ==> Exec(w, run.cmds).snapshot == Missing)
  {
    AnyServer(d, base, server);
    if plan.found {
      PanicFromSafe(ScopeFor(d, base, server), w, plan.faults);
    }
  }

  lemma CloseDisciplined(d: Setup, base: Host, server: IPv4, w: World, plan: PanicPlan)
    requires HostOk(d, base) && SafeWith(d, base, server, w)
    ensures BaselineOk(ScopeFor(d, base, server))
    ensures var cs := CloseCmds(d.hash, TunName(d), w, plan);
            var exit := CloseExit(d.hash, TunName(d), w, plan);
            && Disciplined(ScopeFor(d, base, server), w, cs)
            && (exit == 0 ==> Exec(w, cs).host == base)
            && (exit == 0 && !plan.faults.snapshotRemove ==> Exec(w, cs).snapshot == Missing)
  {
    AnyServer(d, base, server);
    var c := ScopeFor(d, base, server);
    var first := CloseTun(TunName(d));
    PermittedKeepsSafe(c, w, first);
    DisciplinedOne(c, w, first);
    ExecOne(w, first);
    ScriptDisciplined(d, base, server, Apply(w, first), plan);
    var rest := RunScript(d.hash, Apply(w, first), plan).cmds;
    DisciplinedAppend(c, w, [first], rest);
    ExecAppend(w, [first], rest);
  }

  lemma StartDisciplined(d: Setup, base: Host, w: World, url: string, start: StartPlan)
    requires HostOk(d, base) && SafeWith(d, base, start.server, w)
    ensures BaselineOk(ScopeFor(d, base, start.server))
    ensures Disciplined(ScopeFor(d, base, start.server), w, StartCmds(d.hash, SettingsFor(d, url), w, start))
  {
    AnyServer(d, base, start.server);
    AnyURL(d, base, start.server, url);
    var k, c := ScopeFor(d, base, start.server), SettingsFor(d, url);
    var all, n := Program(d.hash, c, start.server, w), Stop(d.hash, c, w, start);
    ProgramDisciplined(k, c, w);
    if !Succeeds(d.hash, c, w, start) {
      DisciplinedPrefix(k, w, all, n);
      if n > |Prelude(c, w)| {
        DisciplinedIsSafe(k, w, all, n);
        var v := Exec(w, all[..n]);
        CleanupDisciplined(d, base, start.server, v, start.cleanup);
        DisciplinedAppend(k, w, all[..n], CleanupCmds(d.hash, TunName(d), v, start.cleanup));
      }
    }
  }

  lemma CleanupDisciplined(d: Setup, base: Host, server: IPv4, w: World, plan: PanicPlan)
    requires HostOk(d, base) && SafeWith(d, base, server, w)
    ensures BaselineOk(ScopeFor(d, base, server))
    ensures Disciplined(ScopeFor(d, base, server), w, CleanupCmds(d.hash, TunName(d), w, plan))
  {
    if TunName(d) in w.host.links {
      CloseDisciplined(d, base, server, w, plan);
    } else {
      ScriptDisciplined(d, base, server, w, plan);
    }
  }

  lemma {:induction false} DisciplinedPrefix(c: Scope, w: World, cs: seq<Cmd>, k: nat)
    requires BaselineOk(c) && Disciplined(c, w, cs) && k <= |cs|
    ensures Disciplined(c, w, cs[..k])
    decreases k
  {
    if k > 0 {
      DisciplinedPrefix(c, Apply(w, cs[0]), cs[1..], k - 1);
      assert cs[..k][1..] == cs[1..][..k - 1];
    }
  }

  /** A clean world is the untouched host, whoever the server was or will be. */
  lemma CleanIsSafe(d: Setup, base: Host, server: IPv4, other: IPv4, w: World)
    requires HostOk(d, base) && SafeWith(d, base, server, w) && w.snapshot.Missing?
    ensures SafeWith(d, base, other, w) && w.host == base
  {
    AnyServer(d, base, server);
    AnyServer(d, base, other);
  }

  /** A start on a world with a snapshot does nothing at all. */
  lemma DirtyStartRefused(hash: string -> string, c: Settings, w: World, start: StartPlan)
    requires !w.snapshot.Missing?
    ensures StartCmds(hash, c, w, start) == [] && !Succeeds(hash, c, w, start)
  {
  }

  /** The address whose rules may be installed while a request is being served. */
  function ServerDuring(d: Setup, s: Sys, req: Request, idle: IPv4, k: nat): IPv4 {
    if req.Connect? && k > |CloseFor(d, s, req.close)| then req.start.server
    else if s.session.Some? then s.session.value.server
    else idle
  }

  /** The closing half of a request, cut anywhere. */
  lemma ClosingSafe(d: Setup, base: Host, s: Sys, plan: PanicPlan, idle: IPv4, k: nat)
    requires HostOk(d, base) && k <= |CloseFor(d, s, plan)|
    requires SafeWith(d, base, if s.session.Some? then s.session.value.server else idle, s.world)
    ensures SafeWith(d, base, if s.session.Some? then s.session.value.server else idle,
                     Exec(s.world, CloseFor(d, s, plan)[..k]))
  {
    var now: IPv4 := if s.session.Some? then s.session.value.server else idle;
    AnyServer(d, base, now);
    if s.session.Some? {
      CloseDisciplined(d, base, now, s.world, plan);
    }
    DisciplinedIsSafe(ScopeFor(d, base, now), s.world, CloseFor(d, s, plan), k);
  }

  /** The starting half, cut anywhere: it only acts on a clean world. */
  lemma StartingSafe(d: Setup, base: Host, server: IPv4, w: World, url: string, start: StartPlan, k: nat)
    requires HostOk(d, base) && SafeWith(d, base, server, w)
    requires 0 < k <= |StartCmds(d.hash, SettingsFor(d, url), w, start)|
    ensures w.snapshot.Missing? && w.host == base
    ensures SafeWith(d, base, start.server, Exec(w, StartCmds(d.hash, SettingsFor(d, url), w, start)[..k]))
  {
    if !w.snapshot.Missing? {
      DirtyStartRefused(d.hash, SettingsFor(d, url), w, start);
    }
    CleanIsSafe(d, base, server, start.server, w);
    StartDisciplined(d, base, w, url, start);
    DisciplinedIsSafe(ScopeFor(d, base, start.server), w, StartCmds(d.hash, SettingsFor(d, url), w, start), k);
  }

  lemma CutAcross(w: World, a: seq<Cmd>, b: seq<Cmd>, k: nat)
    requires |a| < k <= |a| + |b|
    ensures Exec(w, (a + b)[..k]) == Exec(Exec(w, a), b[..k - |a|])
  {
    assert (a + b)[..k] == a + b[..k - |a|];
    ExecAppend(w, a, b[..k - |a|]);
  }

  lemma ConnectStarting(d: Setup, base: Host, s: Sys, name: string, close: PanicPlan, start: StartPlan, idle: IPv4, k: nat)
    requires HostOk(d, base)
    requires 0 < k <= |StartFor(d, s, name, close, start)|
    requires SafeWith(d, base, if s.session.Some? then s.session.value.server else idle, s.world)
    ensures SafeWith(d, base, start.server,
                     Exec(Exec(s.world, CloseFor(d, s, close)), StartFor(d, s, name, close, start)[..k]))
    ensures Exec(s.world, CloseFor(d, s, close)).snapshot.Missing?
    ensures Exec(s.world, CloseFor(d, s, close)).host == base
  {
    var a := CloseFor(d, s, close);
    ClosingSafe(d, base, s, close, idle, |a|);
    assert a[..|a|] == a;
    var now: IPv4 := if s.session.Some? then s.session.value.server else idle;
    StartingSafe(d, base, now, Exec(s.world, a), URLOf(s.keys.mem.keys, Target(s, name)), start, k);
  }

  lemma ConnectSafe(d: Setup, base: Host, s: Sys, name: string, close: PanicPlan, start: StartPlan, idle: IPv4, k: nat)
    requires HostOk(d, base)
    requires k <= |CloseFor(d, s, close) + StartFor(d, s, name, close, start)|
    requires SafeWith(d, base, if s.session.Some? then s.session.value.server else idle, s.world)
    ensures var a, b := CloseFor(d, s, close), StartFor(d, s, name, close, start);
            var now: IPv4 := if k > |a| then start.server else if s.session.Some? then s.session.value.server else idle;
            SafeWith(d, base, now, Exec(s.world, (a + b)[..k]))
  {
    var a, b := CloseFor(d, s, close), StartFor(d, s, name, close, start);
    if k <= |a| {
      ClosingSafe(d, base, s, close, idle, k);
      assert (a + b)[..k] == a[..k];
    } else {
      CutAcross(s.world, a, b, k);
      ConnectStarting(d, base, s, name, close, start, idle, k - |a|);
    }
  }

  /**
   At every point of serving any request - between any two commands - the world is safe: no
   snapshot means the untouched host, a snapshot describes it, and no tunnel loop is possible
   for the server whose rules are in place.
   */
  lemma EveryMomentSafe(d: Setup, base: Host, s: Sys, req: Request, idle: IPv4, k: nat)
    requires HostOk(d, base) && k <= |HostCmds(d, s, req)|
    requires SafeWith(d, base, if s.session.Some? then s.session.value.server else idle, s.world)
    ensures SafeWith(d, base, ServerDuring(d, s, req, idle, k), Exec(s.world, HostCmds(d, s, req)[..k]))
  {
    var cs := HostCmds(d, s, req);
    if cs == [] {
      assert cs[..k] == [];
    } else if req.Connect? {
      ConnectSafe(d, base, s, req.keyName, req.close, req.start, idle, k);
    } else if req.Undo? && s.session.None? {
      ScriptDisciplined(d, base, idle, s.world, req.plan);
      DisciplinedIsSafe(ScopeFor(d, base, idle), s.world, cs, k);
    } else {
      ClosingSafe(d, base, s, req.plan, idle, k);
    }
  }
}
