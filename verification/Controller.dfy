/**
 The controller as the program runs it: one object whose fields the handlers of pantavisor.c,
 updater.c and bootloader.c update in place. Each method is proved to take exactly the step of its
 counterpart in UpdateProtocol; `PowerOn` is a whole session, a run to which the theorems apply.
 */
module Controller {
  import opened Decimal
  import opened Wrappers
  import opened UpdateProtocol
  import opened UpdateSafety

  class Pantavisor {
    const limit: int

    // the boot environment, and the writes completed since the current handler began
    var env: Env
    ghost var written: Writes

    // struct pv_bootloader
    var blRev: Rev
    var blTry: Option<Rev>
    var done: Rev

    // struct pantavisor and the controller state
    var ctl: Ctl
    var state: Option<Rev>
    var update: Option<Update>
    var remote: bool
    var unclaimed: bool
    var cmd: Option<Cmd>

    ghost function Mem(): Vol
      reads this
    {
      Vol(ctl, blRev, blTry, done, state, update, remote, unclaimed, cmd)
    }

    /** The memory and the completed writes are those of effect e. */
    ghost predicate Did(e: Eff)
      reads this
    {
      Mem() == e.v && written == e.ws
    }

    /** Power on (pv_bl_early_init). */
    constructor (env: Env, preferTry: bool, limit: int)
      ensures this.limit == limit && this.env == env && Mem() == BootVol(env, preferTry)
      ensures ctl == INIT && state.None? && update.None? && cmd.None? && !remote && unclaimed
      ensures blRev == (if preferTry && env.tryRev.Some? && env.tryRev.value != "" then env.tryRev.value
                        else if env.rev.Some? then env.rev.value else "0")
      ensures blTry == env.tryRev && done == (if env.rev.Some? then env.rev.value else blRev)
    {
      this.limit := limit;
      this.env := env;
      written := Nil;
      blRev := Booted(env, preferTry);
      blTry := env.tryRev;
      done := env.rev.GetOr(Booted(env, preferTry));
      ctl := INIT;
      state, update, cmd := None, None, None;
      remote, unclaimed := false, true;
    }

    // -------------------------------------------------------------- bootloader.c

    /** One write through bl_ops: it may be refused, or lost without the caller's knowledge, and then changes
        nothing. */
    method WriteEnv(w: Write, res: WriteResult) returns (ok: bool)
      modifies this`env, this`written
      ensures ok == !res.Refused?
      ensures env == if res.Stored? then ApplyWrite(old(env), w) else old(env)
      ensures written == old(written).Then(Stores(w, res))
    {
      ok := !res.Refused?;
      if res.Stored? {
        env := ApplyWrite(env, w);
      }
      written := written.Then(Stores(w, res));
      ThenNil(old(written));
    }

    method SetCommittedRev(r: Rev, inp: Inputs) returns (ok: bool)
      requires written == Nil
      modifies this
      ensures env == written.Apply(old(env))
      ensures Did(SetCommitted(old(Mem()), r, inp)) && ok == SetCommitted(old(Mem()), r, inp).ok
    {
      blRev, done := r, r;
      ok := WriteEnv(SetRev(r), inp.write1);
      if ok {
        blTry := None;
        ok := WriteEnv(UnsetTry, inp.write2);
      }
      CommitStores(r, inp.write1, inp.write2);
    }

    // -------------------------------------------------------------- updater.c

    method SetStatus(s: Status)
      requires update.Some?
      modifies this`update
      ensures Mem() == WithStatus(old(Mem()), s)
    {
      update := Some(update.value.(status := s));
    }

    method UpdateResume()
      modifies this`update
      ensures Mem() == Resume(old(Mem()))
    {
      if update.None? && blTry.Some? && blTry.value != "" {
        update := Some(Update(UInit, None, 0, 0, false));
        if blRev == blTry.value {
          SetStatus(Try);
        } else {
          SetStatus(Failed);
        }
      }
    }

    method UpdateTest()
      modifies this`update
      ensures Mem() == Test(old(Mem()))
    {
      if update.None? {
        return;
      }
      match update.value.status {
        case Try => SetStatus(TestingReboot);
        case Transition => SetStatus(TestingNonReboot);
        case _ =>
      }
    }

    method UpdateFinish(inp: Inputs) returns (ok: bool)
      requires written == Nil
      modifies this
      ensures env == written.Apply(old(env))
      ensures Did(Finish(old(Mem()), inp, limit)) && ok == Finish(old(Mem()), inp, limit).ok
    {
      ok := true;
      if update.None? {
        return;
      }
      match update.value.status {
        case Failed =>
          blTry := None;
          var _ := WriteEnv(UnsetTry, inp.write1);
          update := None;
        case RetryDownload =>
          if update.value.retries > limit {
            update := None;
          }
        case TestingReboot =>
          ok := SetCommittedRev(state.GetOr(""), inp);
          if ok {
            update := None;
          }
        case _ =>
          update := None;
      }
    }

    method CheckNewUpdates(inp: Inputs) returns (found: bool)
      modifies this`update
      ensures (Mem(), found) == CheckForUpdates(old(Mem()), inp, limit)
    {
      if !inp.remoteOk {
        return false;
      }
      if update.Some? && update.value.status == RetryDownload {
        return true;
      }
      found := false;
      if inp.trailOk && inp.offer.Offer? && !inp.offer.inProgress {
        if Atoi(inp.offer.rev) >= Atoi(state.GetOr("")) && inp.offer.parsed && inp.offer.retries <= limit {
          if inp.sigOk && inp.parseOk && update.None? {
            update := Some(Update(Queued, Some(inp.offer.rev), inp.offer.retries, 0, false));
            found := true;
          }
        }
      }
    }

    method UpdateDownload(inp: Inputs) returns (ok: bool)
      modifies this`update
      ensures Mem() == DownloadStep(old(Mem()), inp, limit).v && ok == DownloadStep(old(Mem()), inp, limit).ok
    {
      if state.None? || update.None? || update.value.pending.None? {
        return false;
      }
      if update.value.local {
        return true;
      }
      if !inp.remoteOk || !inp.retryFin {
        return false;
      }
      update := Some(update.value.(retries := update.value.retries + 1));
      if update.value.retries > limit {
        return false;
      }
      match inp.download {
        case MetaFailed => SetStatus(RetryDownload); ok := false;
        case NoSpace => SetStatus(NoDownload); ok := false;
        case ObjectFailed => SetStatus(RetryDownload); ok := false;
        case DownloadOk => SetStatus(Downloaded); ok := true;
      }
    }

    method UpdateInstall(inp: Inputs) returns (ok: bool)
      requires written == Nil
      modifies this
      ensures env == written.Apply(old(env))
      ensures Did(Install(old(Mem()), inp)) && ok == Install(old(Mem()), inp).ok
    {
      if state.None? || update.None? || update.value.pending.None? {
        return false;
      }
      if !inp.linkOk {
        SetStatus(Failed);
        return false;
      }
      if !inp.jsonOk || !inp.expandOk {
        return false;
      }
      blTry := update.value.pending;
      ok := WriteEnv(SetTry(update.value.pending.value), inp.write1);
      if ok {
        update := Some(update.value.(status := Installed, runlevel := inp.runlevel));
      }
    }

    // -------------------------------------------------------------- pantavisor.c

    method Run(inp: Inputs)
      requires written == Nil
      modifies this
      ensures env == written.Apply(old(env))
      ensures Did(RunH(old(Mem()), inp))
    {
      UpdateResume();
      if IsTransitioning(update) {
        state := update.value.pending;
      } else {
        if !inp.sigOk {
          ctl := ROLLBACK;
          return;
        }
        state := if inp.parseOk then Some(blRev) else None;
        if update.Some? {
          update := Some(update.value.(pending := state));
        }
      }
      if state.None? || !inp.sumOk {
        ctl := ROLLBACK;
        return;
      }
      if !inp.mountOk || !inp.configOk || !inp.startOk {
        ctl := ROLLBACK;
        return;
      }
      remote := inp.remoteMode;
      ctl := WAIT;
    }

    method WaitForUpdate(inp: Inputs)
      requires written == Nil
      modifies this
      ensures env == written.Apply(old(env))
      ensures Did(WaitUpdate(old(Mem()), inp, limit))
    {
      hide Finish, Test;
      if update.Some? {
        if IsTrying(update) {
          UpdateTest();
        }
        if IsTesting(update) && !inp.commitFin {
          ctl := WAIT;
          return;
        }
        var ok := UpdateFinish(inp);
        ctl := if ok then WAIT else ROLLBACK;
      } else {
        ctl := WAIT;
      }
    }

    method WaitForNetwork(inp: Inputs)
      requires written == Nil
      modifies this
      ensures env == written.Apply(old(env))
      ensures Did(WaitNetwork(old(Mem()), inp, limit))
    {
      hide WaitUpdate;
      if !inp.authed {
        if IsTrying(update) && inp.rollbackFin {
          ctl := ROLLBACK;
        } else if !IsTrying(update) && IsTesting(update) {
          ctl := ROLLBACK;
        } else {
          ctl := WAIT;
        }
        return;
      }
      if !inp.factoryDone {
        ctl := FACTORY_UPLOAD;
        return;
      }
      if inp.metaOk {
        var found := CheckNewUpdates(inp);
        if found {
          ctl := UPDATE;
          return;
        }
      }
      WaitForUpdate(inp);
    }

    method WaitForClaim(inp: Inputs)
      modifies this`unclaimed, this`ctl
      ensures Mem() == WaitUnclaimed(old(Mem()), inp).v
    {
      if !inp.registered {
        ctl := WAIT;
        return;
      }
      unclaimed := inp.unclaimed;
      ctl := FACTORY_UPLOAD;
    }

    method Wait(inp: Inputs)
      requires written == Nil
      modifies this
      ensures env == written.Apply(old(env))
      ensures Did(WaitH(old(Mem()), inp, limit))
    {
      hide WaitUpdate, WaitNetwork;
      if inp.exited {
        ctl := if IsTrying(update) || IsTesting(update) then ROLLBACK else REBOOT;
        return;
      }
      if remote && (!unclaimed || update.None?) {
        if !inp.delayFin {
          ctl := WAIT;
        } else if unclaimed {
          WaitForClaim(inp);
        } else {
          WaitForNetwork(inp);
        }
      } else {
        WaitForUpdate(inp);
      }
      if ctl != WAIT {
        return;
      }
      if inp.cmd.Some? {
        cmd := inp.cmd;
        ctl := COMMAND;
      }
    }

    method StepLocal(r: Rev, inp: Inputs)
      modifies this`update, this`ctl
      ensures Mem() == LocalStep(old(Mem()), r, inp).v
    {
      ctl := WAIT;
      if inp.sigOk && inp.parseOk {
        update := Some(Update(UInit, Some(r), 0, 0, true));
        ctl := UPDATE;
      }
    }

    method Command(inp: Inputs)
      requires written == Nil
      modifies this
      ensures env == written.Apply(old(env))
      ensures Did(CommandH(old(Mem()), inp))
    {
      ctl := WAIT;
      if cmd.None? {
        return;
      }
      var c := cmd.value;
      cmd := None;
      if update.None? {
        match c {
          case RebootDevice => ctl := REBOOT;
          case PoweroffDevice => ctl := POWEROFF;
          case LocalRun(r) => StepLocal(r, inp);
          case MakeFactory =>
            if unclaimed && inp.factoryOk {
              StepLocal("0", inp);
            }
          case _ =>
        }
      }
    }

    method ProcessUpdate(inp: Inputs)
      requires written == Nil
      modifies this
      ensures env == written.Apply(old(env))
      ensures Did(UpdateH(old(Mem()), inp, limit))
    {
      hide Finish, DownloadStep, Install;
      DownloadHolds(Mem(), inp, limit);
      var ok := UpdateDownload(inp);
      if ok {
        InstallHolds(Mem(), inp);
        ok := UpdateInstall(inp);
      }
      if !ok {
        var _ := UpdateFinish(inp);
        ctl := WAIT;
        return;
      }
      if update.value.runlevel <= 2 {
        update := Some(update.value.(runlevel := 1));
        SetStatus(Rebooting);
        ctl := REBOOT;
        return;
      }
      SetStatus(Transition);
      ctl := if inp.stopOk then RUN else ROLLBACK;
    }

    method Rollback()
      modifies this`update, this`ctl
      ensures Mem() == RollbackH(old(Mem())).v
    {
      if state == Some("0") {
        ctl := ERROR;
        return;
      }
      if update.Some? {
        SetStatus(Failed);
      }
      ctl := REBOOT;
    }

    /** _pv_run_state */
    method RunState(inp: Inputs)
      modifies this
      ensures env == written.Apply(old(env))
      ensures Did(Handler(old(Mem()), inp, limit))
    {
      hide RunH, WaitH, CommandH, UpdateH;
      written := Nil;
      match ctl {
        case INIT =>
          unclaimed := inp.unclaimed;
          ctl := if inp.initOk then RUN else EXIT;
        case RUN => Run(inp);
        case WAIT => Wait(inp);
        case COMMAND => Command(inp);
        case UPDATE => ProcessUpdate(inp);
        case ROLLBACK => Rollback();
        case ERROR => ctl := REBOOT;
        case FACTORY_UPLOAD => ctl := if inp.uploadOk then WAIT else FACTORY_UPLOAD;
        case _ =>
      }
    }

    /** pv_start: run handlers until the session ends or the given inputs are used up; each turn is a step of
        the transition system. */
    method Start(inputs: seq<Inputs>) returns (ghost ss: seq<Sys>, ghost es: seq<Event>)
      modifies this
      ensures |ss| == |es| + 1 && |es| <= |inputs|
      ensures ss[0] == On(old(env), old(Mem())) && ss[|es|] == On(env, Mem())
      ensures forall k | 0 <= k < |es| ::
        es[k] == Handle(inputs[k]) && Applies(ss[k], es[k]) && ss[k + 1] == Step(ss[k], es[k], limit)
      ensures |es| == |inputs| || Ends(ctl)
    {
      ss, es := [On(env, Mem())], [];
      var i := 0;
      while i < |inputs| && !Ends(ctl)
        invariant 0 <= i <= |inputs| && |es| == i && |ss| == i + 1
        invariant ss[0] == On(old(env), old(Mem())) && ss[i] == On(env, Mem())
        invariant forall k | 0 <= k < i ::
          es[k] == Handle(inputs[k]) && Applies(ss[k], es[k]) && ss[k + 1] == Step(ss[k], es[k], limit)
      {
        hide Handler;
        RunState(inputs[i]);
        ss, es := ss + [On(env, Mem())], es + [Handle(inputs[i])];
        i := i + 1;
      }
    }
  }

  /** A session from power-on: its states are a run of the transition system, so what is proved of all runs
      holds of it, such as where the stored pv_rev comes from. */
  method PowerOn(env: Env, preferTry: bool, limit: int, inputs: seq<Inputs>)
    returns (p: Pantavisor, ghost ss: seq<Sys>, ghost es: seq<Event>)
    ensures IsRun(ss, es, limit) && ss[0] == Off(env) && ss[|es|] == On(p.env, p.Mem())
    ensures RevJustified(ss, es, |es|)
    ensures |es| == |inputs| + 1 || Ends(p.ctl)
  {
    p := new Pantavisor(env, preferTry, limit);
    ghost var ts, fs := p.Start(inputs);
    ss, es := [Off(env)] + ts, [Boot(preferTry)] + fs;
    forall i | 0 <= i < |es|
      ensures Applies(ss[i], es[i]) && ss[i + 1] == Step(ss[i], es[i], limit)
    {
      hide Handler, BootVol;
      if i > 0 {
        assert ss[i] == ts[i - 1] && es[i] == fs[i - 1] && ss[i + 1] == ts[i];
      }
    }
    CommittedRevisionWasTried(ss, es, limit, |es|);
  }

  // ---------------------------------------------------------------- helpers

  lemma ThenNil(ws: Writes)
    ensures ws.Then(Nil) == ws
  {
    match ws
    case Nil =>
    case Cons(w, rest) => ThenNil(rest);
  }

  lemma DownloadHolds(v: Vol, inp: Inputs, limit: int)
    ensures var d := DownloadStep(v, inp, limit); d.ws == Nil && (d.ok ==> d.v.update.Some?)
  {
  }

  lemma InstallHolds(v: Vol, inp: Inputs)
    ensures var i := Install(v, inp); (i.ok ==> i.v.update.Some?) && (!i.ok ==> i.ws == Nil)
  {
  }
}
