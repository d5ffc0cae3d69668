/**
 Safety of the update protocol over whole runs: the invariant of the controller, what a handler may
 write, and what the stored pv_rev can be.
 */
module UpdateSafety {
  import opened Decimal
  import opened Wrappers
  import opened UpdateProtocol

  // ---------------------------------------------------------------- invariant of one state

  /** Controller states in which the running state keeps serving and the update may still finish. */
  predicate Live(c: Ctl) { c == WAIT || c == COMMAND || c == FACTORY_UPLOAD }

  /** Controller states that can only lead to a reboot. */
  predicate Doomed(c: Ctl) { c == ROLLBACK || c == ERROR || Ends(c) }

  predicate Has(v: Vol, s: Status) { v.update.Some? && v.update.value.status == s }

  predicate Downloadable(u: Update) { if u.local then u.status == UInit else u.status == Queued || u.status == RetryDownload }

  predicate Resting(u: Update) {
    || u.status == Try || u.status == Transition || u.status == TestingReboot
    || u.status == TestingNonReboot || u.status == Failed || (u.status == RetryDownload && !u.local)
  }

  /** What the update held in memory can be, by controller state. */
  predicate UpdateInv(v: Vol, limit: int) {
    && (v.ctl == INIT ==> v.update.None? && v.state.None?)
    && (v.ctl == RUN ==> if v.update.None? then v.state.None? else v.update.value.status == Transition && v.update.value.pending.Some?)
    && (v.ctl == UPDATE ==> v.update.Some? && Downloadable(v.update.value) && v.state.Some?)
    && (Live(v.ctl) ==> v.state.Some? && (v.update.Some? ==> Resting(v.update.value)))
    && (v.update.Some? && (v.ctl == UPDATE || Live(v.ctl)) ==> v.update.value.pending.Some?)
    && (v.update.Some? && !Doomed(v.ctl) ==> v.update.value.retries <= limit || v.update.value.retries == 0)
  }

  /** What holds between any two handlers. */
  predicate Inv(s: Sys, limit: int) { s.On? ==> UpdateInv(s.v, limit) }

  // ---------------------------------------------------------------- what a handler writes

  /** The commit condition: a wait step that saw no exited platform, in a trial of the booted
      revision, with the commit timer finished. */
  predicate CommitsAt(v: Vol, inp: Inputs) {
    v.ctl == WAIT && !inp.exited && inp.commitFin && (Has(v, Try) || Has(v, TestingReboot))
  }

  predicate CommitWrites(ws: Writes, r: Rev) {
    ws == One(SetRev(r)) || ws == Cons(SetRev(r), One(UnsetTry))
  }

  /** Writes that leave pv_rev alone: at most one, of pv_try. */
  predicate TryWrites(ws: Writes) {
    ws.Nil? || (!ws.w.SetRev? && ws.rest.Nil?)
  }

  /** The writes of an effect, in terms of the state before: none or one of pv_try, or a commit of the
      running revision. */
  predicate Shaped(v: Vol, inp: Inputs, ws: Writes) {
    || TryWrites(ws)
    || (CommitsAt(v, inp) && v.state.Some? && CommitWrites(ws, v.state.value))
  }

  /** The rollback point in memory, and the revision it was booted as, change only in a commit, to the
      running revision. */
  predicate KeepsDone(v: Vol, inp: Inputs, e: Eff) {
    || (e.v.done == v.done && e.v.blRev == v.blRev)
    || (CommitsAt(v, inp) && Some(e.v.done) == v.state == Some(e.v.blRev))
  }

  predicate GoodEffect(v: Vol, inp: Inputs, e: Eff, limit: int) {
    UpdateInv(e.v, limit) && Shaped(v, inp, e.ws) && KeepsDone(v, inp, e)
  }

  lemma FinishFacts(v: Vol, inp: Inputs, limit: int)
    requires v.state.Some?
    ensures var f := Finish(v, inp, limit);
      && f.v.state == v.state && f.v.ctl == v.ctl
      && (f.ok ==> f.v.update.None? || (f.v == v && Has(v, RetryDownload) && v.update.value.retries <= limit))
      && (!f.ok ==> f.v.update == v.update && Has(v, TestingReboot))
      && (if Has(v, TestingReboot) then
            f.v.done == v.state.value == f.v.blRev && (TryWrites(f.ws) || CommitWrites(f.ws, v.state.value))
          else f.ok && f.v.done == v.done && f.v.blRev == v.blRev && TryWrites(f.ws))
  {
    if Has(v, TestingReboot) {
      CommitStores(v.state.value, inp.write1, inp.write2);
    }
  }

  /** The two writes of a commit, by their results. */
  lemma CommitStores(r: Rev, a: WriteResult, b: WriteResult)
    ensures var ws := Stores(SetRev(r), a).Then(Stores(UnsetTry, b));
      ws == if !a.Stored? then Stores(UnsetTry, b) else if b.Stored? then Cons(SetRev(r), One(UnsetTry)) else One(SetRev(r))
  {
    assert One(SetRev(r)).Then(One(UnsetTry)) == Cons(SetRev(r), Nil.Then(One(UnsetTry)));
    assert One(SetRev(r)).Then(Nil) == Cons(SetRev(r), Nil.Then(Nil));
  }

  lemma WaitUpdateGood(v: Vol, inp: Inputs, limit: int)
    requires v.ctl == WAIT && UpdateInv(v, limit) && !inp.exited
    ensures GoodEffect(v, inp, WaitUpdate(v, inp, limit), limit)
  {
    hide Finish, Test;
    TestFacts(v);
    FinishFacts(if IsTrying(v.update) then Test(v) else v, inp, limit);
  }

  lemma WaitUpdateNext(v: Vol, inp: Inputs, limit: int)
    ensures var e := WaitUpdate(v, inp, limit); e.v.ctl == WAIT || e.v.ctl == ROLLBACK
  {
    hide Finish, Test;
  }

  lemma TestFacts(v: Vol)
    ensures Test(v).(update := v.update) == v && (Test(v).update.Some? <==> v.update.Some?)
    ensures v.update.Some? ==>
      Test(v).update.value == v.update.value.(status := if v.update.value.status == Try then TestingReboot
                                                        else if v.update.value.status == Transition then TestingNonReboot
                                                        else v.update.value.status)
  {
  }

  lemma WaitNetworkGood(v: Vol, inp: Inputs, limit: int)
    requires v.ctl == WAIT && UpdateInv(v, limit) && !inp.exited
    ensures GoodEffect(v, inp, WaitNetwork(v, inp, limit), limit)
  {
    hide WaitUpdate, CheckForUpdates;
    var (v1, found) := CheckForUpdates(v, inp, limit);
    CheckFacts(v, inp, limit);
    WaitUpdateGood(v, inp, limit);
  }

  lemma CheckFacts(v: Vol, inp: Inputs, limit: int)
    requires v.ctl == WAIT && UpdateInv(v, limit)
    ensures var (v1, found) := CheckForUpdates(v, inp, limit);
      if found then UpdateInv(v1.(ctl := UPDATE), limit) && v1.done == v.done && v1.blRev == v.blRev else v1 == v
  {
    hide Atoi;
  }

  lemma WaitGood(v: Vol, inp: Inputs, limit: int)
    requires v.ctl == WAIT && UpdateInv(v, limit)
    ensures GoodEffect(v, inp, WaitH(v, inp, limit), limit)
  {
    var e :=
      if v.remote && (!v.unclaimed || v.update.None?) then
        if !inp.delayFin then To(v, WAIT)
        else if v.unclaimed then WaitUnclaimed(v, inp)
        else WaitNetwork(v, inp, limit)
      else WaitUpdate(v, inp, limit);
    if !inp.exited {
      WaitUpdateGood(v, inp, limit);
      WaitNetworkGood(v, inp, limit);
      TakesCommand(v, inp, e, limit);
    }
    hide WaitUpdate, WaitNetwork, TryWrites, CommitWrites;
  }

  lemma TakesCommand(v: Vol, inp: Inputs, e: Eff, limit: int)
    ensures GoodEffect(v, inp, e, limit) && e.v.ctl == WAIT ==>
      GoodEffect(v, inp, e.(v := e.v.(ctl := COMMAND, cmd := inp.cmd)), limit)
  {
    hide TryWrites, CommitWrites;
  }

  lemma UpdateGood(v: Vol, inp: Inputs, limit: int)
    requires v.ctl == UPDATE && UpdateInv(v, limit)
    ensures GoodEffect(v, inp, UpdateH(v, inp, limit), limit)
  {
    hide Finish, DownloadStep, Install;
    var d := DownloadStep(v, inp, limit);
    DownloadFacts(v, inp, limit);
    if !d.ok {
      FailedUpdateGood(v, d, inp, limit);
    } else {
      InstallFacts(d.v, inp);
      var i := Install(d.v, inp);
      if !i.ok {
        FailedUpdateGood(v, i, inp, limit);
      }
    }
  }

  /** A failed download or installation is finished at once. */
  lemma FailedUpdateGood(v: Vol, i: Eff, inp: Inputs, limit: int)
    requires v.ctl == UPDATE && i.v.state.Some? && i.v.done == v.done && i.v.blRev == v.blRev && i.v.state == v.state
    requires i.v.update.Some? && i.v.update.value.pending.Some? && !Has(i.v, TestingReboot)
    requires Has(i.v, RetryDownload) ==> !i.v.update.value.local
    ensures var f := Finish(i.v, inp, limit); GoodEffect(v, inp, Eff(f.v.(ctl := WAIT), f.ws, true), limit)
  {
    hide Finish;
    FinishFacts(i.v, inp, limit);
  }

  lemma DownloadFacts(v: Vol, inp: Inputs, limit: int)
    requires v.ctl == UPDATE && UpdateInv(v, limit)
    ensures var d := DownloadStep(v, inp, limit);
      && d.ws == Nil && d.v.(update := v.update) == v && d.v.update.Some?
      && d.v.update.value.pending == v.update.value.pending
      && !Has(d.v, TestingReboot) && (Has(d.v, RetryDownload) ==> !d.v.update.value.local)
      && (d.ok ==> d.v.update.value.retries <= limit || d.v.update.value.retries == 0)
  {
    assert v.state.Some? && v.update.value.pending.Some? && Downloadable(v.update.value);
    assert v.update.value.retries <= limit || v.update.value.retries == 0;
    hide UpdateInv;
  }

  lemma InstallFacts(v: Vol, inp: Inputs)
    requires v.state.Some? && v.update.Some? && v.update.value.pending.Some? && !Has(v, TestingReboot)
    ensures var i := Install(v, inp);
      && TryWrites(i.ws) && i.v.(update := v.update, blTry := v.blTry) == v && i.v.update.Some?
      && i.v.update.value.pending == v.update.value.pending
      && i.v.update.value.retries == v.update.value.retries && i.v.update.value.local == v.update.value.local
      && !Has(i.v, TestingReboot) && (Has(i.v, RetryDownload) ==> Has(v, RetryDownload))
      && (!i.ok ==> i.ws == Nil)
  {
  }

  lemma StartGood(v: Vol, inp: Inputs, limit: int)
    requires v.update.Some? ==> Resting(v.update.value) && v.update.value.pending == v.state
    requires v.update.Some? ==> v.update.value.retries <= limit || v.update.value.retries == 0
    ensures GoodEffect(v, inp, StartH(v, inp), limit)
  {
  }

  lemma RunGood(v: Vol, inp: Inputs, limit: int)
    requires v.ctl == RUN && UpdateInv(v, limit)
    ensures GoodEffect(v, inp, RunH(v, inp), limit)
  {
    var v1 := Resume(v);
    var u := v1.update;
    hide StartH;
    if IsTransitioning(u) {
      StartGood(v1.(state := u.value.pending), inp, limit);
    } else {
      StartGood(v1.(state := Some(v1.blRev),
                    update := if u.Some? then Some(u.value.(pending := Some(v1.blRev))) else None), inp, limit);
    }
  }

  lemma HandlerGood(v: Vol, inp: Inputs, limit: int)
    requires UpdateInv(v, limit)
    ensures GoodEffect(v, inp, Handler(v, inp, limit), limit)
    ensures Doomed(v.ctl) ==> Doomed(Handler(v, inp, limit).v.ctl)
  {
    hide WaitH, UpdateH, RunH, CommandH;
    match v.ctl
    case WAIT => WaitGood(v, inp, limit);
    case UPDATE => UpdateGood(v, inp, limit);
    case RUN => RunGood(v, inp, limit);
    case COMMAND => CommandFacts(v, inp);
    case _ =>
  }

  /** A command changes nothing but the controller state, or takes up a local update where none was held. */
  lemma CommandFacts(v: Vol, inp: Inputs)
    ensures var h := CommandH(v, inp);
      && h.ws == Nil && h.v.(ctl := v.ctl, cmd := v.cmd, update := v.update) == v
      && (h.v.ctl == WAIT || h.v.ctl == REBOOT || h.v.ctl == POWEROFF || h.v.ctl == UPDATE)
      && (h.v.ctl != UPDATE ==> h.v.update == v.update)
      && (h.v.ctl == UPDATE ==> exists r :: h.v.update == Some(Update(UInit, Some(r), 0, 0, true)))
  {
    hide LocalStep;
    if v.cmd.Some? {
      var v1 := v.(cmd := None);
      LocalFacts(v1, if v.cmd.value.LocalRun? then v.cmd.value.rev else "0", inp);
    }
  }

  lemma LocalFacts(v: Vol, r: Rev, inp: Inputs)
    ensures var h := LocalStep(v, r, inp);
      && h.ws == Nil && h.v.(ctl := v.ctl, update := v.update) == v
      && (h.v.ctl == UPDATE || h.v.ctl == WAIT) && (h.v.ctl == WAIT ==> h.v.update == v.update)
      && (h.v.ctl == UPDATE ==> h.v.update == Some(Update(UInit, Some(r), 0, 0, true)))
  {
  }

  /** Every event keeps the invariant. */
  lemma InvStep(s: Sys, e: Event, limit: int)
    requires Inv(s, limit)
    ensures Inv(Step(s, e, limit), limit)
  {
    hide Handler;
    if s.On? && e.Handle? && !Ends(s.v.ctl) {
      var h := Handler(s.v, e.inp, limit);
      HandlerGood(s.v, e.inp, limit);
    }
  }

  /** Every reachable state satisfies the invariant. */
  lemma {:induction false} InvHolds(ss: seq<Sys>, es: seq<Event>, limit: int, n: nat)
    requires IsRun(ss, es, limit) && n <= |es|
    ensures Inv(ss[n], limit)
  {
    if n == 0 {
    } else {
      InvHolds(ss, es, limit, n - 1);
      InvStep(ss[n - 1], es[n - 1], limit);
    }
  }

  /** A device that is on came there by a boot or by a handler that ran to its end. */
  lemma LastEvent(ss: seq<Sys>, es: seq<Event>, limit: int, n: nat)
    requires IsRun(ss, es, limit) && n <= |es| && ss[n].On?
    ensures |ss| == |es| + 1 && 0 < n && ss[n] == Step(ss[n - 1], es[n - 1], limit)
    ensures if ss[n - 1].Off? then es[n - 1].Boot? && ss[n].v.ctl == INIT else es[n - 1].Handle?
  {
    var s, e := ss[n - 1], es[n - 1];
    assert Applies(s, e) && ss[n - 1 + 1] == Step(s, e, limit);
    hide Handler, Booted, IsRun;
  }

  // ---------------------------------------------------------------- trials

  predicate Trial(v: Vol) { Has(v, Try) || Has(v, TestingReboot) }

  /** Everything _pv_run checks or starts succeeded: signature, parsing, checksums, volumes,
      configuration and platforms. */
  predicate PassedRun(inp: Inputs) {
    inp.sigOk && inp.parseOk && inp.sumOk && inp.mountOk && inp.configOk && inp.startOk
  }

  /** How a handler can end in a live trial: it started the trial, or it kept one going. */
  predicate TrialStep(v: Vol, inp: Inputs, h: Eff) {
    && h.ws == Nil && (v.ctl == WAIT ==> !inp.exited)
    && if v.ctl == RUN then
         && v.update.None? && PassedRun(inp) && TryingUpdate(v)
         && Has(h.v, Try) && h.v.state == Some(v.blRev)
       else
         && Live(v.ctl) && h.v.state == v.state
         && (Has(h.v, Try) ==> Has(v, Try))
         && (Has(h.v, TestingReboot) ==> Has(v, TestingReboot) || (v.ctl == WAIT && Has(v, Try)))
  }

  lemma WaitUpdateTrial(v: Vol, inp: Inputs, limit: int)
    requires v.ctl == WAIT && UpdateInv(v, limit) && !inp.exited
    ensures var h := WaitUpdate(v, inp, limit); h.v.ctl == WAIT && Trial(h.v) ==> TrialStep(v, inp, h)
  {
    FinishFacts(if IsTrying(v.update) then Test(v) else v, inp, limit);
    hide Finish;
  }

  lemma WaitTrial(v: Vol, inp: Inputs, limit: int)
    requires v.ctl == WAIT && UpdateInv(v, limit)
    ensures var h := WaitH(v, inp, limit); Live(h.v.ctl) && Trial(h.v) ==> TrialStep(v, inp, h)
  {
    hide WaitUpdate, Accepts;
    if !inp.exited {
      WaitUpdateTrial(v, inp, limit);
      WaitUpdateNext(v, inp, limit);
    }
  }

  lemma UpdateTrial(v: Vol, inp: Inputs, limit: int)
    requires v.ctl == UPDATE && UpdateInv(v, limit)
    ensures var h := UpdateH(v, inp, limit); Live(h.v.ctl) ==> !Trial(h.v)
  {
    hide Finish, DownloadStep, Install;
    var d := DownloadStep(v, inp, limit);
    DownloadFacts(v, inp, limit);
    var i := if d.ok then Install(d.v, inp) else d;
    if d.ok {
      InstallFacts(d.v, inp);
    }
    FinishFacts(i.v, inp, limit);
  }

  lemma RunTrial(v: Vol, inp: Inputs, limit: int)
    requires v.ctl == RUN && UpdateInv(v, limit)
    ensures var h := RunH(v, inp); Live(h.v.ctl) && Trial(h.v) ==> TrialStep(v, inp, h)
  {
    assert v.update.Some? ==> v.update.value.status == Transition;
    hide UpdateInv;
  }

  lemma HandlerTrial(v: Vol, inp: Inputs, limit: int)
    requires UpdateInv(v, limit)
    ensures var h := Handler(v, inp, limit); Live(h.v.ctl) && Trial(h.v) ==> TrialStep(v, inp, h)
  {
    hide WaitH, UpdateH, RunH, CommandH;
    match v.ctl
    case WAIT => WaitTrial(v, inp, limit);
    case UPDATE => UpdateTrial(v, inp, limit);
    case RUN => RunTrial(v, inp, limit);
    case COMMAND => CommandFacts(v, inp);
    case _ =>
  }

  // ---------------------------------------------------------------- the safety theorem

  /** Events b+1..n-1 all belong to the boot session that event b began. */
  ghost predicate Session(ss: seq<Sys>, es: seq<Event>, b: nat, n: nat)
    requires |ss| == |es| + 1
  {
    && b < n <= |es| && es[b].Boot? && ss[b].Off?
    && forall k | b < k < n :: es[k].Handle?
  }

  /** By event n, revision r was itself booted with pv_try = r (event b), passed every check and start
      of _pv_run (event u), and no wait step since then saw an exited platform. */
  ghost predicate Tried(ss: seq<Sys>, es: seq<Event>, r: Rev, b: nat, u: nat, n: nat)
    requires |ss| == |es| + 1
  {
    && Session(ss, es, b, n) && b < u < n
    && r != "" && ss[b].env.tryRev == Some(r) && Booted(ss[b].env, es[b].preferTry) == r
    && ss[u].On? && ss[u].v.ctl == RUN && PassedRun(es[u].inp)
    && forall k | u < k < n :: ss[k].On? && (ss[k].v.ctl == WAIT ==> !es[k].inp.exited)
  }

  /** ... and since wait step t, which began the commit timer, it has stayed in TESTING up to n. */
  ghost predicate Tested(ss: seq<Sys>, es: seq<Event>, r: Rev, b: nat, u: nat, t: nat, n: nat)
    requires |ss| == |es| + 1
  {
    && Tried(ss, es, r, b, u, n) && u < t <= n < |ss|
    && ss[t].On? && ss[t].v.ctl == WAIT && Has(ss[t].v, Try)
    && forall k | t < k <= n :: ss[k].On? && Has(ss[k].v, TestingReboot)
  }

  /** ... and at wait step c no platform had exited and the commit timer had finished. */
  ghost predicate Certified(ss: seq<Sys>, es: seq<Event>, r: Rev, b: nat, u: nat, t: nat, c: nat)
    requires |ss| == |es| + 1
  {
    && c < |es| && Tested(ss, es, r, b, u, t, c) && ss[c].On? && ss[c].v.ctl == WAIT
    && !es[c].Boot? && !es[c].inp.exited && es[c].inp.commitFin
  }

  /** The stored pv_rev before event n is the initial one or has a complete trial behind it. */
  ghost predicate RevJustified(ss: seq<Sys>, es: seq<Event>, n: nat)
    requires |ss| == |es| + 1 && n < |ss|
  {
    || ss[n].env.rev == ss[0].env.rev
    || exists r: Rev, b: nat, u: nat, t: nat, c: nat :: c < n && Certified(ss, es, r, b, u, t, c) && ss[n].env.rev == Some(r)
  }

  ghost predicate HasTried(ss: seq<Sys>, es: seq<Event>, r: Rev, n: nat)
    requires |ss| == |es| + 1
  {
    exists b: nat, u: nat :: Tried(ss, es, r, b, u, n)
  }

  ghost predicate HasTested(ss: seq<Sys>, es: seq<Event>, r: Rev, n: nat)
    requires |ss| == |es| + 1
  {
    exists b: nat, u: nat, t: nat :: t < n && Tested(ss, es, r, b, u, t, n)
  }

  /** The trial under way before event n, if any, has its history and is the one stored as pv_try. */
  ghost predicate TrialJustified(ss: seq<Sys>, es: seq<Event>, n: nat)
    requires |ss| == |es| + 1 && n < |ss|
  {
    ss[n].On? && Live(ss[n].v.ctl) && Trial(ss[n].v) ==>
      && ss[n].v.state.Some? && ss[n].env.tryRev == ss[n].v.state
      && (Has(ss[n].v, Try) ==> HasTried(ss, es, ss[n].v.state.value, n))
      && (Has(ss[n].v, TestingReboot) ==> HasTested(ss, es, ss[n].v.state.value, n))
  }

  /** A loaded session comes straight from its boot: RUN without an update follows INIT, which follows
      Boot, and nothing was written in between. */
  lemma FreshRun(ss: seq<Sys>, es: seq<Event>, limit: int, n: nat)
    requires IsRun(ss, es, limit) && n <= |es|
    requires ss[n].On? && ss[n].v.ctl == RUN && ss[n].v.update.None?
    ensures n >= 2 && Session(ss, es, n - 2, n)
    ensures ss[n].env == ss[n - 2].env && ss[n].v.blTry == ss[n - 2].env.tryRev
    ensures ss[n].v.blRev == Booted(ss[n - 2].env, es[n - 2].preferTry)
  {
    InvHolds(ss, es, limit, n - 1);
    RunOrigin(ss[n - 1], es[n - 1], limit);
    InvHolds(ss, es, limit, n - 2);
    InitOrigin(ss[n - 2], es[n - 2], limit);
  }

  lemma RunOrigin(s: Sys, e: Event, limit: int)
    requires Inv(s, limit) && Applies(s, e) && Step(s, e, limit).On? && Step(s, e, limit).v.ctl == RUN
    requires Step(s, e, limit).v.update.None?
    ensures s.On? && s.v.ctl == INIT && e.Handle? && Step(s, e, limit).env == s.env
    ensures Step(s, e, limit).v.blRev == s.v.blRev && Step(s, e, limit).v.blTry == s.v.blTry
  {
    hide Handler;
    if s.On? && !Ends(s.v.ctl) {
      HandlerNext(s.v, e.inp, limit);
    }
  }

  lemma InitOrigin(s: Sys, e: Event, limit: int)
    requires Inv(s, limit) && Applies(s, e) && Step(s, e, limit).On? && Step(s, e, limit).v.ctl == INIT
    ensures s.Off? && e.Boot? && Step(s, e, limit) == On(s.env, BootVol(s.env, e.preferTry))
  {
    hide Handler;
    if s.On? && !Ends(s.v.ctl) {
      HandlerNext(s.v, e.inp, limit);
    }
  }

  /** The way into a session: no handler leads to INIT, and only INIT and the switch of a hot update to RUN. */
  lemma HandlerNext(v: Vol, inp: Inputs, limit: int)
    requires UpdateInv(v, limit) && !Ends(v.ctl)
    ensures var h := Handler(v, inp, limit);
      && h.v.ctl != INIT
      && (h.v.ctl == RUN ==>
           if v.ctl == INIT then h.ws == Nil && h.v.update == v.update && h.v.blRev == v.blRev && h.v.blTry == v.blTry
           else v.ctl == UPDATE && h.v.update.Some?)
  {
    hide WaitH, UpdateH, RunH, CommandH;
    match v.ctl
    case WAIT => WaitNext(v, inp, limit);
    case UPDATE => UpdateNext(v, inp, limit);
    case RUN => RunNext(v, inp);
    case COMMAND => CommandFacts(v, inp);
    case _ =>
  }

  lemma WaitNext(v: Vol, inp: Inputs, limit: int)
    ensures var h := WaitH(v, inp, limit); h.v.ctl != INIT && h.v.ctl != RUN
  {
    WaitUpdateNext(v, inp, limit);
    WaitUpdateNext(CheckForUpdates(v, inp, limit).0, inp, limit);
    hide WaitUpdate, CheckForUpdates;
  }

  lemma UpdateNext(v: Vol, inp: Inputs, limit: int)
    requires v.ctl == UPDATE && UpdateInv(v, limit)
    ensures var h := UpdateH(v, inp, limit); h.v.ctl != INIT && (h.v.ctl == RUN ==> h.v.update.Some?)
  {
    var d := DownloadStep(v, inp, limit);
    DownloadFacts(v, inp, limit);
    if d.ok {
      InstallFacts(d.v, inp);
    }
    hide DownloadStep, Install, Finish;
  }

  lemma RunNext(v: Vol, inp: Inputs)
    ensures var h := RunH(v, inp); h.v.ctl == WAIT || h.v.ctl == ROLLBACK
  {
    hide Resume;
  }

  /** What an event does to the stored pv_rev. */
  lemma RevStep(s: Sys, e: Event, limit: int)
    requires Inv(s, limit) && Applies(s, e)
    ensures var s' := Step(s, e, limit);
      s'.env.rev == s.env.rev || (s.On? && CommitsAt(s.v, e.inp) && s'.env.rev == s.v.state)
  {
    hide Handler;
    if s.On? {
      HandlerGood(s.v, e.inp, limit);
      PrefixRev(s.env, Handler(s.v, e.inp, limit).ws, if e.Cut? then e.writes else 0);
    }
  }

  lemma PrefixRev(env: Env, ws: Writes, n: nat)
    ensures TryWrites(ws) ==> ws.Apply(env).rev == env.rev && ws.Take(n).Apply(env).rev == env.rev
    ensures forall r | CommitWrites(ws, r) ::
      ws.Apply(env).rev == Some(r) && (ws.Take(n).Apply(env).rev == env.rev || ws.Take(n).Apply(env).rev == Some(r))
  {
    forall r | CommitWrites(ws, r)
      ensures ws.Apply(env).rev == Some(r)
      ensures ws.Take(n).Apply(env).rev == env.rev || ws.Take(n).Apply(env).rev == Some(r)
    {
      if n > 0 {
        assert ws.Take(n).rest == ws.rest.Take(n - 1);
        assert ws.rest.Take(n - 1) == Nil || ws.rest.Take(n - 1) == One(UnsetTry);
        assert ws.rest.Take(n - 1).Apply(Env(Some(r), env.tryRev)).rev == Some(r);
      }
    }
  }

  lemma TrialEvent(s: Sys, e: Event, limit: int)
    requires Inv(s, limit) && Applies(s, e)
    ensures var s' := Step(s, e, limit);
      s'.On? && Live(s'.v.ctl) && Trial(s'.v) ==>
        && s.On? && e.Handle? && s'.env == s.env
        && TrialStep(s.v, e.inp, Eff(s'.v, Nil, true))
  {
    hide Handler;
    if s.On? {
      HandlerTrial(s.v, e.inp, limit);
    }
  }

  lemma TriedExtends(ss: seq<Sys>, es: seq<Event>, r: Rev, b: nat, u: nat, n: nat)
    requires |ss| == |es| + 1 && n < |es| && Tried(ss, es, r, b, u, n)
    requires ss[n].On? && es[n].Handle? && (ss[n].v.ctl == WAIT ==> !es[n].inp.exited)
    ensures Tried(ss, es, r, b, u, n + 1)
  {
  }

  lemma TryExtends(ss: seq<Sys>, es: seq<Event>, r: Rev, n: nat)
    requires |ss| == |es| + 1 && n < |es| && ss[n].On? && es[n].Handle? && Has(ss[n].v, Try)
    requires ss[n].v.ctl == WAIT ==> !es[n].inp.exited
    requires HasTried(ss, es, r, n)
    ensures HasTried(ss, es, r, n + 1)
    ensures ss[n].v.ctl == WAIT && ss[n + 1].On? && Has(ss[n + 1].v, TestingReboot) ==>
      HasTested(ss, es, r, n + 1)
  {
    var b: nat, u: nat :| Tried(ss, es, r, b, u, n);
    TriedExtends(ss, es, r, b, u, n);
    if ss[n].v.ctl == WAIT && ss[n + 1].On? && Has(ss[n + 1].v, TestingReboot) {
      assert Tested(ss, es, r, b, u, n, n + 1);
    }
  }

  lemma TestExtends(ss: seq<Sys>, es: seq<Event>, r: Rev, n: nat)
    requires |ss| == |es| + 1 && n < |es| && ss[n].On? && es[n].Handle?
    requires ss[n].v.ctl == WAIT ==> !es[n].inp.exited
    requires ss[n + 1].On? && Has(ss[n + 1].v, TestingReboot)
    requires HasTested(ss, es, r, n)
    ensures HasTested(ss, es, r, n + 1)
  {
    var b: nat, u: nat, t: nat :| t < n && Tested(ss, es, r, b, u, t, n);
    TestedExtends(ss, es, r, b, u, t, n);
    hide Tested;
    assert t < n + 1;
  }

  lemma TestedExtends(ss: seq<Sys>, es: seq<Event>, r: Rev, b: nat, u: nat, t: nat, n: nat)
    requires |ss| == |es| + 1 && n < |es| && ss[n].On? && es[n].Handle?
    requires ss[n].v.ctl == WAIT ==> !es[n].inp.exited
    requires ss[n + 1].On? && Has(ss[n + 1].v, TestingReboot)
    requires t < n && Tested(ss, es, r, b, u, t, n)
    ensures Tested(ss, es, r, b, u, t, n + 1)
  {
    TriedExtends(ss, es, r, b, u, n);
    hide Tried;
  }

  lemma TrialStepJustified(ss: seq<Sys>, es: seq<Event>, limit: int, n: nat)
    requires IsRun(ss, es, limit) && n < |es| && TrialJustified(ss, es, n)
    ensures TrialJustified(ss, es, n + 1)
  {
    hide Step;
    var s, s' := ss[n], ss[n + 1];
    InvHolds(ss, es, limit, n);
    TrialEvent(s, es[n], limit);
    if s'.On? && Live(s'.v.ctl) && Trial(s'.v) {
      var r := s'.v.state.value;
      if s.v.ctl == RUN {
        FreshRun(ss, es, limit, n);
        assert Tried(ss, es, r, n - 2, n, n + 1);
      } else {
        hide HasTried, HasTested;
        if Has(s.v, Try) {
          TryExtends(ss, es, r, n);
        } else {
          TestExtends(ss, es, r, n);
        }
      }
    }
  }

  lemma {:induction false} TrialsJustified(ss: seq<Sys>, es: seq<Event>, limit: int, n: nat)
    requires IsRun(ss, es, limit) && n <= |es|
    ensures TrialJustified(ss, es, n)
  {
    if n == 0 {
    } else {
      TrialsJustified(ss, es, limit, n - 1);
      TrialStepJustified(ss, es, limit, n - 1);
    }
  }

  /** An event that changes the stored pv_rev is a commit at the end of a complete trial. */
  lemma CommitIsCertified(ss: seq<Sys>, es: seq<Event>, limit: int, n: nat)
    requires IsRun(ss, es, limit) && n < |es| && ss[n + 1].env.rev != ss[n].env.rev
    ensures exists r: Rev, b: nat, u: nat, t: nat ::
      Certified(ss, es, r, b, u, t, n) && ss[n + 1].env.rev == Some(r)
  {
    InvHolds(ss, es, limit, n);
    RevStep(ss[n], es[n], limit);
    TrialsJustified(ss, es, limit, n);
    hide Step, Handler, Inv;
    var r := ss[n].v.state.value;
    if Has(ss[n].v, Try) {
      var b: nat, u: nat :| Tried(ss, es, r, b, u, n);
      assert Certified(ss, es, r, b, u, n, n);
    } else {
      var b: nat, u: nat, t: nat :| t < n && Tested(ss, es, r, b, u, t, n);
      assert Certified(ss, es, r, b, u, t, n);
    }
  }

  /** In every run, whatever the reboots, power cuts, commands, network, timers and environment
      failures, the stored pv_rev is the initial one or a revision with a complete trial behind it. */
  lemma {:induction false} CommittedRevisionWasTried(ss: seq<Sys>, es: seq<Event>, limit: int, n: nat)
    requires IsRun(ss, es, limit) && n <= |es|
    ensures RevJustified(ss, es, n)
  {
    assert |ss| == |es| + 1;
    hide IsRun, Certified;
    if n == 0 {
    } else {
      CommittedRevisionWasTried(ss, es, limit, n - 1);
      if ss[n].env.rev != ss[n - 1].env.rev {
        CommitIsCertified(ss, es, limit, n - 1);
      }
    }
  }
}
