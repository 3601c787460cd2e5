/** The daemon's request handlers, proved against `Daemon.Served`. */
module Server {
  import opened Addresses
  import opened Hosts
  import opened Machines
  import opened PanicScript
  import opened Config
  import opened StartProgram
  import opened Sessions
  import opened KeyStates
  import Keystore
  import opened Daemon

  class Server {
    const stateDir: string
    const resolvPath: string
    const ks: Keystore.Store
    const m: Machine
    var session: Session?
    var sessKey: string

    ghost function SetupOf(): Setup {
      Setup(m.hash, ks.unescape, stateDir, resolvPath)
    }

    /** A session the server holds was started and has not been closed. */
    ghost predicate Valid()
      reads this, m, session
    {
      && m.Valid()
      && (session != null ==>
            && session.tunOpen && !session.stopped && session.server.Some?
            && session.cfg == SettingsFor(SetupOf(), session.cfg.transportURL))
    }

    ghost function Now(): Sys
      requires Valid()
      reads this, m, ks, session
    {
      Sys(m.Now(), ks.Now(),
          if session == null then None else Some(Live(session.cfg.transportURL, session.server.value)),
          sessKey)
    }

    constructor (ks: Keystore.Store, m: Machine, stateDir: string, resolvPath: string)
      requires m.Valid()
      ensures Valid() && Now() == Sys(m.Now(), ks.Now(), None, "")
      ensures this.ks == ks && this.m == m
    {
      this.ks, this.m, this.stateDir, this.resolvPath := ks, m, stateDir, resolvPath;
      session, sessKey := null, "";
    }

    method DoAdd(url: string, suggested: string, now: int, io: bool) returns (ok: bool)
      requires Valid()
      modifies ks
      ensures Valid()
      ensures var req := AddKey(url, suggested, now, io);
              Now() == Served(SetupOf(), old(Now()), req) && ok == Accepts(SetupOf(), old(Now()), req)
    {
      var status, _ := ks.Add(url, suggested, now, io);
      ok := status == Done;
    }

    method DoRemove(name: string, io: bool) returns (ok: bool)
      requires Valid()
      modifies ks
      ensures Valid()
      ensures var req := RemoveKey(name, io);
              Now() == Served(SetupOf(), old(Now()), req) && ok == Accepts(SetupOf(), old(Now()), req)
    {
      if sessKey == name {
        return false;
      }
      var status := ks.Remove(name, io);
      ok := status == Done;
    }

    method DoRename(name: string, newName: string, io: bool) returns (ok: bool)
      requires Valid()
      modifies this`sessKey, ks
      ensures Valid()
      ensures var req := RenameKey(name, newName, io);
              Now() == Served(SetupOf(), old(Now()), req) && ok == Accepts(SetupOf(), old(Now()), req)
    {
      var status := ks.Rename(name, newName, io);
      if status != Done {
        return false;
      }
      if sessKey == name {
        sessKey := newName;
      }
      return true;
    }

    method DoUse(name: string, io: bool) returns (ok: bool)
      requires Valid()
      modifies ks
      ensures Valid()
      ensures var req := UseKey(name, io);
              Now() == Served(SetupOf(), old(Now()), req) && ok == Accepts(SetupOf(), old(Now()), req)
    {
      var status := ks.Use(name, io);
      ok := status == Done;
    }

    /** Forget the session first, then close it; a failed close does not bring it back. */
    method EndSession(plan: PanicPlan) returns (ok: bool)
      requires Valid()
      modifies this`session, this`sessKey, m, session
      ensures Valid() && session == null && sessKey == ""
      ensures m.Now() == Exec(old(Now()).world, CloseFor(SetupOf(), old(Now()), plan))
      ensures ok == CloseSucceeds(SetupOf(), old(Now()), plan)
    {
      var sess := session;
      session, sessKey := null, "";
      if sess == null {
        return true;
      }
      ok := sess.Close(m, plan);
    }

    method DoDisconnect(plan: PanicPlan) returns (ok: bool)
      requires Valid() && (session == null ==> sessKey == "")
      modifies this`session, this`sessKey, m, session
      ensures Valid()
      ensures Now() == Served(SetupOf(), old(Now()), Disconnect(plan))
      ensures ok == Accepts(SetupOf(), old(Now()), Disconnect(plan))
    {
      var connected := session != null;
      ok := EndSession(plan);
      ok := connected && ok;
    }

    /** With a session, close it; without one, run the script directly. */
    method DoUndo(plan: PanicPlan) returns (ok: bool)
      requires Valid()
      modifies this`session, this`sessKey, m, session
      ensures Valid()
      ensures Now() == Served(SetupOf(), old(Now()), Undo(plan))
      ensures ok == Accepts(SetupOf(), old(Now()), Undo(plan))
    {
      if session != null {
        ok := EndSession(plan);
        return;
      }
      sessKey := "";
      if !plan.found {
        return false;
      }
      var exit := RunPanic(m, plan.faults);
      ok := exit == 0;
    }

    /** The end of Run: whatever session is left is closed. The key list is reloaded by the next start. */
    method ShutDown(plan: PanicPlan) returns (ok: bool)
      requires Valid()
      modifies this`session, this`sessKey, m, session
      ensures Valid()
      ensures Now() == Served(SetupOf(), old(Now()), Shutdown(plan)).(keys := old(Now()).keys)
      ensures ok == Accepts(SetupOf(), old(Now()), Shutdown(plan))
    {
      ok := EndSession(plan);
    }

    method DoStatus() returns (view: StatusView)
      requires Valid()
      ensures view == StatusOf(Now())
    {
      view := StatusView(false, "", false);
      if session != null {
        view := view.(connected := true, keyName := sessKey);
      }
      if !m.snapshot.Missing? && !view.connected {
        view := view.(dirtySnapshot := true);
      }
    }

    /** Build and start a session on what is there now; adopt it only if it came up. */
    method FreshConnect(target: string, url: string, env: Environment, resolved: Option<IPv4>, cleanup: PanicPlan, now: int, io: bool)
      returns (ok: bool, ghost start: StartPlan)
      requires Valid() && session == null && sessKey == ""
      modifies this`session, this`sessKey, m, ks, env
      ensures Valid()
      ensures var c, w := SettingsFor(SetupOf(), url), old(m.Now());
              && ok == (Validate(c) == Accepted && Succeeds(m.hash, c, w, start))
              && m.Now() == (if Validate(c) == Accepted then Exec(w, StartCmds(m.hash, c, w, start)) else w)
      ensures ok ==> fresh(session) && session.cfg.transportURL == url && session.server == Some(start.server) && sessKey == target
      ensures !ok ==> session == null && sessKey == ""
      ensures resolved.Some? ==> start.server == resolved.value
      ensures !ok ==>
                || env.faulted || resolved.None?
                || Validate(SettingsFor(SetupOf(), url)) != Accepted || !Admitted(SettingsFor(SetupOf(), url), old(m.Now()))
      ensures ks.Now() == if ok then Step(ks.unescape, old(ks.Now()), MarkConnected(target, now, io)) else old(ks.Now())
    {
      hide StartCmds, Succeeds;
      var c := DaemonSettings(url, stateDir, resolvPath);
      start := StartPlan(if resolved.Some? then resolved.value else 0, 0, cleanup);
      if Validate(c) != Accepted {
        return false, start;
      }
      var sess := new Session(c);
      ok, start := sess.Start(m, env, resolved, cleanup);
      if !ok {
        return;
      }
      session, sessKey := sess, target;
      var _ := ks.MarkConnected(target, now, io);
    }

    /** A connect to nothing, to an unknown key, or to the connected key changes nothing. */
    lemma InertConnect(s: Sys, name: string, close: PanicPlan, start: StartPlan, now: int, io: bool)
      requires !ConnectActs(s, name) && (s.session.None? ==> s.sessKey == "")
      ensures Served(SetupOf(), s, Connect(name, close, start, now, io)) == s
      ensures Accepts(SetupOf(), s, Connect(name, close, start, now, io))
              <==> Target(s, name) != "" && Has(s.keys.mem.keys, Target(s, name))
    {
    }

    /** A connect whose old session, if any, was closed: what is left is the start. */
    lemma ActiveConnect(s: Sys, name: string, close: PanicPlan, start: StartPlan, now: int, io: bool)
      requires ConnectActs(s, name) && CloseSucceeds(SetupOf(), s, close)
      ensures var d := SetupOf();
              var req := Connect(name, close, start, now, io);
              var c := SettingsFor(d, URLOf(s.keys.mem.keys, Target(s, name)));
              var w := Exec(s.world, CloseFor(d, s, close));
              var ok := Validate(c) == Accepted && Succeeds(d.hash, c, w, start);
              && Accepts(d, s, req) == ok
              && Served(d, s, req) == Sys(
                   if Validate(c) == Accepted then Exec(w, StartCmds(d.hash, c, w, start)) else w,
                   if ok then Step(d.unescape, s.keys, MarkConnected(Target(s, name), now, io)) else s.keys,
                   if ok then Some(Live(URLOf(s.keys.mem.keys, Target(s, name)), start.server)) else None,
                   if ok then Target(s, name) else "")
    {
      var d := SetupOf();
      ExecAppend(s.world, CloseFor(d, s, close), StartFor(d, s, name, close, start));
    }

    /** Close what is there, then connect; give up if closing fails. */
    method Switch(name: string, target: string, url: string, close: PanicPlan, env: Environment,
                  resolved: Option<IPv4>, cleanup: PanicPlan, now: int, io: bool)
      returns (ok: bool, ghost start: StartPlan)
      requires Valid() && ConnectActs(Now(), name) && target == Target(Now(), name)
      requires url == URLOf(ks.keys, target)
      modifies this`session, this`sessKey, m, ks, session, env
      ensures Valid()
      ensures var req := Connect(name, close, start, now, io);
              Now() == Served(SetupOf(), old(Now()), req) && ok == Accepts(SetupOf(), old(Now()), req)
      ensures resolved.Some? ==> start.server == resolved.value
      ensures StartAdmitted(SetupOf(), old(Now()), name, close) && resolved.Some? && !env.faulted ==> ok
    {
      hide StartCmds, Succeeds, CloseFor;
      ghost var s := Now();
      start := StartPlan(if resolved.Some? then resolved.value else 0, 0, cleanup);
      ok := EndSession(close);
      if !ok {
        RefusedSwitch(s, name, close, start, now, io);
      } else {
        ok, start := FreshConnect(target, url, env, resolved, cleanup, now, io);
        ActiveConnect(s, name, close, start, now, io);
      }
    }

    /**
     Connect, or switch: the same key is a no-op; another key first closes the old session,
     and gives up if that fails.
     */
    method DoConnect(name: string, close: PanicPlan, env: Environment, resolved: Option<IPv4>, cleanup: PanicPlan, now: int, io: bool)
      returns (ok: bool, ghost start: StartPlan)
      requires Valid() && (session == null ==> sessKey == "")
      modifies this`session, this`sessKey, m, ks, session, env
      ensures Valid()
      ensures var req := Connect(name, close, start, now, io);
              Now() == Served(SetupOf(), old(Now()), req) && ok == Accepts(SetupOf(), old(Now()), req)
      ensures resolved.Some? ==> start.server == resolved.value
      ensures StartAdmitted(SetupOf(), old(Now()), name, close) && resolved.Some? && !env.faulted ==> ok
    {
      start := StartPlan(if resolved.Some? then resolved.value else 0, 0, cleanup);
      var target := if name == "" then ks.active else name;
      var key := ks.Get(target);
      if target == "" || key.None? || (session != null && sessKey == target) {
        InertConnect(Now(), name, close, start, now, io);
        ok := target != "" && key.Some?;
      } else {
        ok, start := Switch(name, target, key.value.url, close, env, resolved, cleanup, now, io);
      }
    }

    lemma RefusedSwitch(s: Sys, name: string, close: PanicPlan, start: StartPlan, now: int, io: bool)
      requires ConnectActs(s, name) && !CloseSucceeds(SetupOf(), s, close)
      ensures Served(SetupOf(), s, Connect(name, close, start, now, io))
           == Sys(Exec(s.world, CloseFor(SetupOf(), s, close)), s.keys, None, "")
      ensures !Accepts(SetupOf(), s, Connect(name, close, start, now, io))
    {
      var a := CloseFor(SetupOf(), s, close);
      assert StartFor(SetupOf(), s, name, close, start) == [];
      assert a + [] == a;
    }
  }
}
