/**
 What the garbage collector and the next boot may rely on, over whole runs: which revision a session works
 on, whether that is the one stored as pv_try, and that a fall-back clears pv_try.
 */
module UpdateGuard {
  import opened Decimal
  import opened Wrappers
  import opened UpdateProtocol
  import opened UpdateSafety
  import opened UpdateRecovery

  /** The controller states in which a revision is loaded and the collector may run. */
  predicate Working(c: Ctl) { Live(c) || c == UPDATE }

  predicate Named(e: Option<Rev>) { e.Some? && e.value != "" }

  /** The revision a session works on: it was booted for it, is switching to it, or runs it. */
  function Subject(v: Vol): Option<Rev> {
    if v.ctl == INIT || (v.ctl == RUN && v.update.None?) then Some(v.blRev)
    else if v.ctl == RUN then v.update.value.pending
    else v.state
  }

  /** The session works on the stored pv_try. */
  predicate TryHeld(env: Env, v: Vol) { Subject(v) == env.tryRev }

  // ---------------------------------------------------------------- one event

  /** An update is downloaded and installed, and the store reports that pv_try is written. */
  predicate Installs(s: Sys, e: Event, limit: int) {
    && s.On? && e.Handle? && s.v.ctl == UPDATE && s.v.update.Some?
    && DownloadStep(s.v, e.inp, limit).ok && Install(DownloadStep(s.v, e.inp, limit).v, e.inp).ok
  }

  /** Only an installation changes the revision a session works on, and only it stores a pv_try, unless that
      write is lost. */
  lemma SubjectStep(s: Sys, e: Event, limit: int)
    requires s.On? && e.Handle? && Inv(s, limit) && Step(s, e, limit).On? && !Doomed(Step(s, e, limit).v.ctl)
    ensures var s' := Step(s, e, limit);
      if Installs(s, e, limit) then
        && s'.v.ctl == RUN && s'.v.update.Some? && s'.v.state == s.v.state == Subject(s.v)
        && Subject(s'.v) == s.v.update.value.pending && s.v.update.value.pending.Some?
        && s'.env.tryRev == (if e.inp.write1.Stored? then s.v.update.value.pending else s.env.tryRev)
        && !e.inp.write1.Refused?
      else
        && Subject(s'.v) == Subject(s.v) && (s'.env.tryRev == s.env.tryRev || s'.env.tryRev == None)
        && (s'.v.ctl == RUN ==> s'.v.update.None?)
  {
    hide WaitH, UpdateH, RunH, CommandH, DownloadStep, Install;
    assert !Doomed(s.v.ctl) by { HandlerGood(s.v, e.inp, limit); }
    match s.v.ctl
    case WAIT => WaitTry(s, e.inp, limit);
    case UPDATE => UpdateTry(s, e.inp, limit);
    case RUN => RunTry(s.v, e.inp);
    case COMMAND => CommandFacts(s.v, e.inp);
    case _ =>
  }

  /** No write of pv_try but its removal. */
  predicate OnlyUnsets(ws: Writes)
    decreases ws
  {
    ws.Cons? ==> !ws.w.SetTry? && OnlyUnsets(ws.rest)
  }

  lemma {:induction false} UnsetsRemove(ws: Writes, env: Env)
    requires OnlyUnsets(ws)
    ensures ws.Apply(env).tryRev == env.tryRev || ws.Apply(env).tryRev == None
    decreases ws
  {
    if ws.Nil? {
    } else {
      UnsetsRemove(ws.rest, ApplyWrite(env, ws.w));
    }
  }

  lemma FinishUnsets(v: Vol, inp: Inputs, limit: int)
    requires v.state.Some?
    ensures var f := Finish(v, inp, limit); OnlyUnsets(f.ws) && f.v.state == v.state && f.v.ctl == v.ctl
  {
    CommitStores(v.state.value, inp.write1, inp.write2);
    assert OnlyUnsets(One(UnsetTry)) && OnlyUnsets(Nil);
    hide OnlyUnsets;
    assert Has(v, TestingReboot) ==> OnlyUnsets(Finish(v, inp, limit).ws) by { OnlyCommit(v.state.value); }
  }

  lemma OnlyCommit(r: Rev)
    ensures OnlyUnsets(Cons(SetRev(r), One(UnsetTry))) && OnlyUnsets(One(SetRev(r))) && OnlyUnsets(One(UnsetTry))
  {
  }

  lemma WaitUpdateUnsets(v: Vol, inp: Inputs, limit: int)
    requires v.ctl == WAIT && v.state.Some?
    ensures var h := WaitUpdate(v, inp, limit);
      OnlyUnsets(h.ws) && h.v.state == v.state && (h.v.ctl == WAIT || h.v.ctl == ROLLBACK)
  {
    hide Finish, Test;
    TestFacts(v);
    FinishUnsets(if IsTrying(v.update) then Test(v) else v, inp, limit);
  }

  /** A wait step keeps the running revision, and pv_try too or removes it. */
  lemma WaitTry(s: Sys, inp: Inputs, limit: int)
    requires s.On? && s.v.ctl == WAIT && UpdateInv(s.v, limit)
    ensures var h := WaitH(s.v, inp, limit); var env := h.ws.Apply(s.env);
      && (env.tryRev == s.env.tryRev || env.tryRev == None) && h.v.state == s.v.state
      && h.v.ctl != INIT && h.v.ctl != RUN
  {
    hide WaitUpdate, Accepts;
    WaitUpdateUnsets(s.v, inp, limit);
    CheckFacts(s.v, inp, limit);
    UnsetsRemove(WaitH(s.v, inp, limit).ws, s.env);
  }

  /** An update step installs, or it ends in the wait state with pv_try as it was or removed. */
  lemma UpdateTry(s: Sys, inp: Inputs, limit: int)
    requires s.On? && s.v.ctl == UPDATE && UpdateInv(s.v, limit)
    ensures var h := UpdateH(s.v, inp, limit); var env, u := h.ws.Apply(s.env), s.v.update.value.pending;
      && h.v.state == s.v.state && u.Some?
      && if Installs(s, Handle(inp), limit) then
           && (h.v.ctl == RUN || Doomed(h.v.ctl)) && h.v.update.Some? && h.v.update.value.pending == u
           && !inp.write1.Refused? && env.tryRev == (if inp.write1.Stored? then u else s.env.tryRev)
         else h.v.ctl == WAIT && (env.tryRev == s.env.tryRev || env.tryRev == None)
  {
    var d := DownloadStep(s.v, inp, limit);
    DownloadFacts(s.v, inp, limit);
    hide DownloadStep, Finish;
    var i := if d.ok then Install(d.v, inp) else d;
    InstallSets(d.v, inp, s.env);
    FinishUnsets(i.v, inp, limit);
    UnsetsRemove(Finish(i.v, inp, limit).ws, s.env);
    hide Install;
  }

  lemma InstallSets(v: Vol, inp: Inputs, env: Env)
    requires v.state.Some? && v.update.Some? && v.update.value.pending.Some?
    ensures var i := Install(v, inp);
      && i.v.state == v.state && i.v.update.Some? && i.v.update.value.pending == v.update.value.pending
      && if i.ok then !inp.write1.Refused?
           && i.ws.Apply(env).tryRev == (if inp.write1.Stored? then v.update.value.pending else env.tryRev)
         else i.ws == Nil
  {
    assert One(SetTry(v.update.value.pending.value)).Apply(env).tryRev == v.update.value.pending;
  }

  lemma RunTry(v: Vol, inp: Inputs)
    requires v.ctl == RUN && (v.update.Some? ==> v.update.value.status == Transition)
    ensures var h := RunH(v, inp);
      h.ws == Nil && (Doomed(h.v.ctl) || (h.v.ctl == WAIT
        && h.v.state == if v.update.Some? then v.update.value.pending else Some(v.blRev)))
  {
  }

  // ---------------------------------------------------------------- the last aim of a session

  /** The session is booted as r, or installs r. */
  predicate Aimed(s: Sys, e: Event, limit: int, r: Rev) {
    BootsAs(s, e, r) || (Installs(s, e, limit) && s.v.update.value.pending == Some(r))
  }

  /** The session is booted as another revision than the stored pv_try, or installs another one and the write
      that should store it is lost. */
  predicate Misses(s: Sys, e: Event, limit: int) {
    || (s.Off? && e.Boot? && Some(Booted(s.env, e.preferTry)) != s.env.tryRev)
    || (Installs(s, e, limit) && e.inp.write1.Lost? && s.v.update.value.pending != s.env.tryRev)
  }

  /** The last boot or installation of the session was for r. */
  ghost predicate Aims(ss: seq<Sys>, es: seq<Event>, limit: int, n: nat, r: Rev)
    requires |ss| == |es| + 1 && n < |ss|
  {
    exists b: nat | b < n :: Aimed(ss[b], es[b], limit, r) && Undisturbed(ss, es, limit, b, n)
  }

  /** The last boot or installation of the session missed the stored pv_try. */
  ghost predicate Stale(ss: seq<Sys>, es: seq<Event>, limit: int, n: nat)
    requires |ss| == |es| + 1 && n < |ss|
  {
    exists b: nat | b < n :: Misses(ss[b], es[b], limit) && Undisturbed(ss, es, limit, b, n)
  }

  /** The session goes on from event b to n, and nothing is installed in between. */
  ghost predicate Undisturbed(ss: seq<Sys>, es: seq<Event>, limit: int, b: nat, n: nat)
    requires |ss| == |es| + 1 && n < |ss|
  {
    forall k | b < k <= n :: ss[k].On? && (k < n ==> !Installs(ss[k], es[k], limit))
  }

  lemma UndisturbedStep(ss: seq<Sys>, es: seq<Event>, limit: int, b: nat, n: nat)
    requires |ss| == |es| + 1 && b < n < |ss| && ss[n].On?
    ensures Undisturbed(ss, es, limit, b, n) <==>
      b == n - 1 || (ss[n - 1].On? && !Installs(ss[n - 1], es[n - 1], limit) && Undisturbed(ss, es, limit, b, n - 1))
  {
    hide Installs;
    if b < n - 1 && ss[n - 1].On? && !Installs(ss[n - 1], es[n - 1], limit) && Undisturbed(ss, es, limit, b, n - 1) {
      assert forall k | b < k <= n :: k == n || k == n - 1 || (k < n - 1 && ss[k].On?);
    }
  }

  lemma AimStep(ss: seq<Sys>, es: seq<Event>, limit: int, n: nat, r: Rev)
    requires |ss| == |es| + 1 && 0 < n < |ss| && ss[n].On?
    ensures var s, e := ss[n - 1], es[n - 1];
      && (Aims(ss, es, limit, n, r) <==>
           Aimed(s, e, limit, r) || (s.On? && !Installs(s, e, limit) && Aims(ss, es, limit, n - 1, r)))
      && (Stale(ss, es, limit, n) <==>
           Misses(s, e, limit) || (s.On? && !Installs(s, e, limit) && Stale(ss, es, limit, n - 1)))
  {
    hide Installs, Aimed, Misses, Undisturbed;
    forall b: nat | b < n
      ensures Undisturbed(ss, es, limit, b, n) <==>
        b == n - 1 || (ss[n - 1].On? && !Installs(ss[n - 1], es[n - 1], limit) && Undisturbed(ss, es, limit, b, n - 1))
    {
      UndisturbedStep(ss, es, limit, b, n);
    }
    assert Undisturbed(ss, es, limit, n - 1, n);
  }

  /** In every run, until the controller is on its way to a reboot, a session works on r if and only if its last
      boot or installation was for r. */
  lemma {:induction false} SubjectIsAim(ss: seq<Sys>, es: seq<Event>, limit: int, n: nat, r: Rev)
    requires IsRun(ss, es, limit) && n <= |es| && ss[n].On? && !Doomed(ss[n].v.ctl)
    ensures Subject(ss[n].v) == Some(r) <==> Aims(ss, es, limit, n, r)
  {
    hide IsRun, Step, Inv, Aims, Stale, Installs, Aimed, Subject, Doomed;
    LastEvent(ss, es, limit, n);
    var s, e := ss[n - 1], es[n - 1];
    AimStep(ss, es, limit, n, r);
    if s.On? {
      InvHolds(ss, es, limit, n - 1);
      AimedStep(s, e, limit, r);
      SubjectIsAim(ss, es, limit, n - 1, r);
    } else {
      BootAims(s, e, limit, r);
    }
  }

  lemma AimedStep(s: Sys, e: Event, limit: int, r: Rev)
    requires s.On? && e.Handle? && Inv(s, limit) && Step(s, e, limit).On? && !Doomed(Step(s, e, limit).v.ctl)
    ensures !Doomed(s.v.ctl)
    ensures Subject(Step(s, e, limit).v) == Some(r) <==>
      Aimed(s, e, limit, r) || (!Installs(s, e, limit) && Subject(s.v) == Some(r))
  {
    StaysUndoomed(s, e, limit);
    SubjectStep(s, e, limit);
    hide Step, Installs, Inv;
  }

  lemma BootAims(s: Sys, e: Event, limit: int, r: Rev)
    requires s.Off? && e.Boot?
    ensures var s' := Step(s, e, limit); s'.On? && (Subject(s'.v) == Some(r) <==> Aimed(s, e, limit, r))
  {
  }

  lemma StaysUndoomed(s: Sys, e: Event, limit: int)
    requires s.On? && e.Handle? && Inv(s, limit) && Step(s, e, limit).On? && !Doomed(Step(s, e, limit).v.ctl)
    ensures !Doomed(s.v.ctl)
  {
    HandlerGood(s.v, e.inp, limit);
    hide Handler;
  }

  /** And then the stored pv_try is the one it works on if and only if that boot or installation did not miss it. */
  lemma {:induction false} TryIsHeld(ss: seq<Sys>, es: seq<Event>, limit: int, n: nat)
    requires IsRun(ss, es, limit) && n <= |es| && ss[n].On? && !Doomed(ss[n].v.ctl) && Named(ss[n].env.tryRev)
    ensures TryHeld(ss[n].env, ss[n].v) <==> !Stale(ss, es, limit, n)
  {
    hide IsRun, Step, Inv, Aims, Stale, Installs, Misses, TryHeld, Doomed;
    LastEvent(ss, es, limit, n);
    var s, e := ss[n - 1], es[n - 1];
    AimStep(ss, es, limit, n, "");
    if s.On? {
      InvHolds(ss, es, limit, n - 1);
      HeldStep(s, e, limit);
      if !Installs(s, e, limit) {
        TryIsHeld(ss, es, limit, n - 1);
      }
    } else {
      BootHolds(s, e, limit);
    }
  }

  lemma HeldStep(s: Sys, e: Event, limit: int)
    requires s.On? && e.Handle? && Inv(s, limit)
    requires Step(s, e, limit).On? && !Doomed(Step(s, e, limit).v.ctl) && Named(Step(s, e, limit).env.tryRev)
    ensures var s' := Step(s, e, limit);
      && !Doomed(s.v.ctl) && (!Installs(s, e, limit) ==> Named(s.env.tryRev))
      && (TryHeld(s'.env, s'.v) <==> if Installs(s, e, limit) then !Misses(s, e, limit) else TryHeld(s.env, s.v))
      && (Misses(s, e, limit) ==> Installs(s, e, limit))
  {
    StaysUndoomed(s, e, limit);
    SubjectStep(s, e, limit);
    hide Step, Installs, Inv;
  }

  lemma BootHolds(s: Sys, e: Event, limit: int)
    requires s.Off? && e.Boot?
    ensures var s' := Step(s, e, limit); s'.On? && (TryHeld(s'.env, s'.v) <==> !Misses(s, e, limit))
  {
  }

  /** The revision whose platforms run: what the session works on, and during a switch what it worked on before. */
  ghost predicate Serves(ss: seq<Sys>, es: seq<Event>, limit: int, n: nat, r: Rev)
    requires |ss| == |es| + 1 && n < |ss| && ss[n].On?
  {
    Aims(ss, es, limit, if n > 0 && ss[n].v.ctl == RUN && ss[n].v.update.Some? then n - 1 else n, r)
  }

  /** In every run that is the revision of the running state, as soon as one is loaded. */
  lemma RunningIsServed(ss: seq<Sys>, es: seq<Event>, limit: int, n: nat, r: Rev)
    requires IsRun(ss, es, limit) && n <= |es| && ss[n].On? && !Doomed(ss[n].v.ctl) && ss[n].v.ctl != INIT
    requires ss[n].v.ctl == RUN ==> ss[n].v.update.Some?
    ensures ss[n].v.state == Some(r) <==> Serves(ss, es, limit, n, r)
  {
    hide IsRun, Step, Aims, Doomed, Subject;
    LastEvent(ss, es, limit, n);
    if ss[n].v.ctl == RUN {
      SwitchServes(ss, es, limit, n, r);
    } else {
      StateIsSubject(ss[n].v);
      SubjectIsAim(ss, es, limit, n, r);
    }
  }

  lemma SwitchServes(ss: seq<Sys>, es: seq<Event>, limit: int, n: nat, r: Rev)
    requires IsRun(ss, es, limit) && n <= |es| && ss[n].On? && ss[n].v.ctl == RUN && ss[n].v.update.Some?
    ensures n > 0 && (ss[n].v.state == Some(r) <==> Aims(ss, es, limit, n - 1, r))
  {
    hide IsRun, Step, Aims, Doomed, Subject, Inv;
    LastEvent(ss, es, limit, n);
    var s, e := ss[n - 1], es[n - 1];
    InvHolds(ss, es, limit, n - 1);
    assert Step(s, e, limit) == ss[n];
    SwitchStep(s, e, limit);
    SubjectIsAim(ss, es, limit, n - 1, r);
  }

  lemma StateIsSubject(v: Vol)
    ensures v.ctl != INIT && v.ctl != RUN ==> Subject(v) == v.state
  {
  }

  lemma SwitchStep(s: Sys, e: Event, limit: int)
    requires s.On? && e.Handle? && Inv(s, limit)
    requires Step(s, e, limit).On? && Step(s, e, limit).v.ctl == RUN && Step(s, e, limit).v.update.Some?
    ensures !Doomed(s.v.ctl) && Step(s, e, limit).v.state == Subject(s.v)
  {
    StaysUndoomed(s, e, limit);
    SubjectStep(s, e, limit);
    hide Step, Installs, Inv;
  }

  // ---------------------------------------------------------------- the end of a fall-back

  /** A wait step that gets as far as the update. */
  predicate Finishes(s: Sys, e: Event) { s.On? && e.Handle? && s.v.ctl == WAIT && !e.inp.exited && GetsToUpdate(s.v, e.inp) }

  /** The session runs r after an update that failed, which is not finished yet. */
  predicate FallingBack(v: Vol, r: Rev) {
    || ((v.ctl == INIT || v.ctl == RUN) && v.update.None? && v.blRev == r && InProgress(v) && !TryingUpdate(v))
    || (Live(v.ctl) && Has(v, Failed) && v.state == Some(r))
    || Doomed(v.ctl)
  }

  lemma FallingBackStep(s: Sys, e: Event, limit: int, r: Rev)
    requires s.On? && e.Handle? && FallingBack(s.v, r) && !Finishes(s, e) && Step(s, e, limit).On?
    ensures var s' := Step(s, e, limit); FallingBack(s'.v, r) && s'.env == s.env && s'.v.done == s.v.done
  {
    hide WaitH, UpdateH, RunH, CommandH;
    match s.v.ctl
    case WAIT => FallingBackWait(s.v, e.inp, limit, r);
    case RUN => FallingBackRun(s.v, e.inp, r);
    case COMMAND => FallingBackCommand(s.v, e.inp);
    case _ =>
  }

  lemma FallingBackWait(v: Vol, inp: Inputs, limit: int, r: Rev)
    requires v.ctl == WAIT && Has(v, Failed) && v.state == Some(r) && (inp.exited || !GetsToUpdate(v, inp))
    ensures var h := WaitH(v, inp, limit); FallingBack(h.v, r) && h.ws == Nil && h.v.done == v.done
  {
    hide WaitUpdate, CheckForUpdates;
  }

  lemma FallingBackRun(v: Vol, inp: Inputs, r: Rev)
    requires v.ctl == RUN && FallingBack(v, r)
    ensures var h := RunH(v, inp); FallingBack(h.v, r) && h.ws == Nil && h.v.done == v.done
  {
  }

  lemma FallingBackCommand(v: Vol, inp: Inputs)
    requires v.ctl == COMMAND && v.update.Some?
    ensures var h := CommandH(v, inp);
      h.v.ctl == WAIT && h.v.update == v.update && h.v.state == v.state && h.v.done == v.done && h.ws == Nil
  {
  }

  /** In the session that event b began no wait step before n has got as far as the update. */
  ghost predicate Unfinished(ss: seq<Sys>, es: seq<Event>, b: nat, n: nat)
    requires |ss| == |es| + 1 && n < |ss|
  {
    forall k | b < k <= n :: ss[k].On? && (k < n ==> !Finishes(ss[k], es[k]))
  }

  lemma LastUnfinished(ss: seq<Sys>, es: seq<Event>, b: nat, n: nat)
    requires |ss| == |es| + 1 && b < n < |ss| && Unfinished(ss, es, b, n)
    ensures ss[n].On?
    ensures b < n - 1 ==> ss[n - 1].On? && !Finishes(ss[n - 1], es[n - 1]) && Unfinished(ss, es, b, n - 1)
  {
    hide Finishes;
  }

  lemma {:induction false} FallBackGoesOn(ss: seq<Sys>, es: seq<Event>, limit: int, b: nat, n: nat, r: Rev)
    requires IsRun(ss, es, limit) && b < n <= |es| && BootsAs(ss[b], es[b], r)
    requires Named(ss[b].env.tryRev) && ss[b].env.tryRev != Some(r)
    requires Unfinished(ss, es, b, n)
    ensures ss[n].On?
    ensures FallingBack(ss[n].v, r) && ss[n].env == ss[b].env && ss[n].v.done == ss[b].env.rev.GetOr(r)
  {
    assert |ss| == |es| + 1;
    hide IsRun, Unfinished, Step, FallingBack, Finishes, BootsAs;
    LastUnfinished(ss, es, b, n);
    LastEvent(ss, es, limit, n);
    var s, e := ss[n - 1], es[n - 1];
    if b == n - 1 {
      FallBackBegins(s, e, limit, r);
    } else {
      FallBackGoesOn(ss, es, limit, b, n - 1, r);
      FallingBackStep(s, e, limit, r);
    }
  }

  lemma FallBackBegins(s: Sys, e: Event, limit: int, r: Rev)
    requires BootsAs(s, e, r) && Named(s.env.tryRev) && s.env.tryRev != Some(r)
    ensures var s' := Step(s, e, limit); s'.On? && FallingBack(s'.v, r) && s'.env == s.env && s'.v.done == s.env.rev.GetOr(r)
  {
  }

  /** In every run, in a session booted as r although another pv_try is stored, the first wait step that gets as
      far as the update drops it, goes on with r, and leaves (old, none) stored if its write is done. */
  lemma FallbackCompletes(ss: seq<Sys>, es: seq<Event>, limit: int, b: nat, n: nat, r: Rev, inp: Inputs)
    requires IsRun(ss, es, limit) && b < n <= |es| && BootsAs(ss[b], es[b], r)
    requires Named(ss[b].env.tryRev) && ss[b].env.tryRev != Some(r)
    requires Unfinished(ss, es, b, n)
    requires Finishes(ss[n], Handle(inp))
    ensures var s := Step(ss[n], Handle(inp), limit);
      && s.On? && s.env == (if inp.write1.Stored? then Env(ss[b].env.rev, None) else ss[b].env)
      && s.v.update.None? && s.v.state == Some(r) && s.v.done == ss[b].env.rev.GetOr(r)
      && s.v.ctl == if inp.cmd.None? then WAIT else COMMAND
  {
    FallBackGoesOn(ss, es, limit, b, n, r);
    hide IsRun, BootsAs;
    FailedWait(ss[n].v, inp, limit);
    hide WaitH;
    assert One(UnsetTry).Apply(ss[n].env) == ss[n].env.(tryRev := None);
  }

  lemma FailedWait(v: Vol, inp: Inputs, limit: int)
    requires v.ctl == WAIT && Has(v, Failed) && !inp.exited && GetsToUpdate(v, inp)
    ensures var h := WaitH(v, inp, limit);
      && h.ws == Stores(UnsetTry, inp.write1) && h.v.update.None? && h.v.state == v.state && h.v.done == v.done
      && h.v.ctl == if inp.cmd.None? then WAIT else COMMAND
  {
    hide Atoi, Stores;
  }

  // ---------------------------------------------------------------- reachable exceptions

  /** The first three events of a session that runs r although pv_try is stored. */
  lemma FallbackBegins(env: Env, i0: Inputs, i1: Inputs, limit: int) returns (ss: seq<Sys>, es: seq<Event>)
    requires env.rev.Some? && Named(env.tryRev) && env.tryRev != env.rev && i0.initOk && PassedRun(i1) && !i1.remoteMode
    ensures |ss| == |es| + 1 && IsRun(ss, es, limit) && ss[0] == Off(env)
    ensures ss[|es|] == On(env, FallbackVol(env, i0, Some(Update(Failed, env.rev, 0, 0, false)), env.tryRev))
  {
    es := [Boot(false), Handle(i0), Handle(i1)];
    FallbackHandlers(env, i0, i1, limit);
    hide Handler;
    var s1 := Step(Off(env), es[0], limit);
    var s2 := Step(s1, es[1], limit);
    ss := [Off(env), s1, s2, Step(s2, es[2], limit)];
  }

  function FallbackVol(env: Env, i0: Inputs, u: Option<Update>, blTry: Option<Rev>): Vol {
    var r := env.rev.GetOr("0");
    Vol(WAIT, r, blTry, r, Some(r), u, false, i0.unclaimed, None)
  }

  lemma FallbackHandlers(env: Env, i0: Inputs, i1: Inputs, limit: int)
    requires env.rev.Some? && Named(env.tryRev) && env.tryRev != env.rev && i0.initOk && PassedRun(i1) && !i1.remoteMode
    ensures var v0 := BootVol(env, false); var v1 := v0.(ctl := RUN, unclaimed := i0.unclaimed);
      && Handler(v0, i0, limit) == Eff(v1, Nil, true)
      && Handler(v1, i1, limit)
         == Eff(FallbackVol(env, i0, Some(Update(Failed, env.rev, 0, 0, false)), env.tryRev), Nil, true)
  {
  }

  /** Revision 2 fails, revision 1 is booted instead, and the write that should remove pv_try is refused or lost:
      the update is dropped all the same, and nothing in memory names the stored pv_try any more. */
  lemma TryIsLeftOver(i0: Inputs, i1: Inputs, i2: Inputs, limit: int) returns (ss: seq<Sys>, es: seq<Event>)
    requires i0.initOk && PassedRun(i1) && !i1.remoteMode
    requires !i2.exited && !i2.write1.Stored? && i2.cmd.None?
    ensures |ss| == |es| + 1 && IsRun(ss, es, limit) && ss[0] == Off(Env(Some("1"), Some("2")))
    ensures var s := ss[|es|];
      && s.On? && s.v.ctl == WAIT && s.env == ss[0].env
      && s.v.update.None? && s.v.state == Some("1") && s.v.done == "1"
  {
    var env := Env(Some("1"), Some("2"));
    ss, es := FallbackBegins(env, i0, i1, limit);
    UnsetFails(env, i0, i2, limit);
    hide IsRun, Step;
    ss, es := OneMoreEvent(ss, es, Handle(i2), limit);
  }

  lemma UnsetFails(env: Env, i0: Inputs, inp: Inputs, limit: int)
    requires !inp.exited && !inp.write1.Stored? && inp.cmd.None?
    ensures Step(On(env, FallbackVol(env, i0, Some(Update(Failed, env.rev, 0, 0, false)), env.tryRev)), Handle(inp), limit)
      == On(env, FallbackVol(env, i0, None, None))
  {
  }
}
