/**
 What each handler of the controller does, in the words of its inputs: for every controller state, exactly
 when which state comes next and what becomes of a held update. The transition system is written as the
 code is; these are the promises it has to keep.
 */
module UpdateSteps {
  import opened Decimal
  import opened Wrappers
  import opened UpdateProtocol
  import opened UpdateSafety

  predicate Trying(v: Vol) { Has(v, Try) || Has(v, Transition) }

  predicate Testing(v: Vol) { Has(v, TestingReboot) || Has(v, TestingNonReboot) }

  // ---------------------------------------------------------------- wait

  /** A wait step of a claimed device in remote mode, past its delay. */
  predicate Online(v: Vol, inp: Inputs) { v.remote && !v.unclaimed && !inp.exited && inp.delayFin }

  /** A wait step that comes to the update: at once in local mode, or before the device is claimed with an update
      held; else past the login and the factory upload, with no step to be taken up. */
  predicate ComesToUpdate(v: Vol, inp: Inputs, limit: int) {
    && !inp.exited
    && (v.remote ==>
          if v.unclaimed then v.update.Some?
          else inp.delayFin && inp.authed && inp.factoryDone && !(inp.metaOk && Offered(v, inp, limit)))
  }

  /** There is a step to be taken up: the download of the held update is to be tried again, or none is held and
      the trail offers one that parses, that nobody works on, that is no older than the running revision and
      within the retries, with a good signature. */
  predicate Offered(v: Vol, inp: Inputs, limit: int) {
    && inp.remoteOk
    && (|| Has(v, RetryDownload)
        || (&& v.update.None? && inp.trailOk && inp.offer.Offer? && inp.offer.parsed && !inp.offer.inProgress
            && v.state.Some? && Atoi(inp.offer.rev) >= Atoi(v.state.value) && inp.offer.retries <= limit
            && inp.sigOk && inp.parseOk))
  }

  /** A wait step gives up the update, and with it the session, exactly when a platform exits or the connection
      fails in a trial or a test (in a trial, when the rollback timer is over too), or the store refuses a
      commit. */
  lemma WaitGivesUp(v: Vol, inp: Inputs, limit: int)
    requires v.ctl == WAIT && UpdateInv(v, limit)
    ensures Handler(v, inp, limit).v.ctl == ROLLBACK <==>
      || (inp.exited && (Trying(v) || Testing(v)))
      || (Online(v, inp) && !inp.authed && (if Trying(v) then inp.rollbackFin else Testing(v)))
      || (ComesToUpdate(v, inp, limit) && inp.commitFin && Trial(v) && (inp.write1.Refused? || inp.write2.Refused?))
  {
    WaitUpdateGivesUp(v, inp, limit);
    hide Atoi, WaitUpdate;
  }

  lemma WaitUpdateGivesUp(v: Vol, inp: Inputs, limit: int)
    requires v.ctl == WAIT
    ensures WaitUpdate(v, inp, limit).v.ctl ==
      if inp.commitFin && Trial(v) && (inp.write1.Refused? || inp.write2.Refused?) then ROLLBACK else WAIT
  {
    hide Stores;
  }

  /** Where else it leads, and exactly when. */
  lemma WaitLeads(v: Vol, inp: Inputs, limit: int)
    requires v.ctl == WAIT && UpdateInv(v, limit)
    ensures var c := Handler(v, inp, limit).v.ctl;
      && (c == REBOOT <==> inp.exited && !Trying(v) && !Testing(v))
      && (c == FACTORY_UPLOAD <==>
           || (Online(v, inp) && inp.authed && !inp.factoryDone)
           || (v.remote && v.unclaimed && v.update.None? && !inp.exited && inp.delayFin && inp.registered))
      && (c == UPDATE <==> Online(v, inp) && inp.authed && inp.factoryDone && inp.metaOk && Offered(v, inp, limit))
      && (c == COMMAND ==> inp.cmd.Some?) && (c == WAIT ==> inp.cmd.None?)
      && c in {REBOOT, ROLLBACK, FACTORY_UPLOAD, UPDATE, COMMAND, WAIT}
  {
    hide Atoi;
  }

  /** A wait step takes up a new update exactly when one is offered on line, and then it is the offered one. */
  lemma AcceptsExactly(v: Vol, inp: Inputs, limit: int)
    requires v.ctl == WAIT && UpdateInv(v, limit) && v.update.None?
    ensures var h := Handler(v, inp, limit);
      h.v.update == if Online(v, inp) && inp.authed && inp.factoryDone && inp.metaOk && Offered(v, inp, limit)
                    then Some(Update(Queued, Some(inp.offer.rev), inp.offer.retries, 0, false)) else None
  {
    hide Atoi;
  }

  /** What a wait step is that comes to the update, and one that does not. */
  lemma WaitComes(v: Vol, inp: Inputs, limit: int)
    requires v.ctl == WAIT && UpdateInv(v, limit)
    ensures var h, w := Handler(v, inp, limit), WaitUpdate(v, inp, limit);
      if ComesToUpdate(v, inp, limit) then h.ws == w.ws && h.v.(ctl := WAIT, cmd := v.cmd) == w.v.(ctl := WAIT, cmd := v.cmd)
      else h.ws == Nil && h.v.(ctl := WAIT, cmd := v.cmd, update := v.update, unclaimed := v.unclaimed) == v
           && (v.update.Some? ==> h.v.update == v.update)
  {
    WaitUpdateNext(v, inp, limit);
    hide Atoi, WaitUpdate;
  }

  /** Finishing an update drops it, but for a download to be tried again within the limit and a commit that the
      store refuses; pv_try goes with an update that has failed. */
  lemma FinishLeads(v: Vol, inp: Inputs, limit: int)
    requires v.update.Some?
    ensures var f, u := Finish(v, inp, limit), v.update.value;
      && (Has(v, Failed) ==> f.ws == Stores(UnsetTry, inp.write1) && f.v.blTry.None?)
      && (!Has(v, Failed) && !Has(v, TestingReboot) ==> f.ws == Nil && f.v.blTry == v.blTry)
      && f.v.state == v.state && f.v.remote == v.remote && f.v.unclaimed == v.unclaimed && f.v.cmd == v.cmd
      && f.v.update == (if Has(v, RetryDownload) && u.retries <= limit then Some(u)
                        else if Has(v, TestingReboot) && (inp.write1.Refused? || inp.write2.Refused?) then Some(u) else None)
  {
    hide Stores;
  }

  /** What the update part of a wait step does: a trial or a switch goes on to testing until the timer is over, a
      download to be tried again stays within the limit, and anything else is over, but for a commit that the
      store refuses. */
  lemma WaitUpdateLeads(v: Vol, inp: Inputs, limit: int)
    requires v.ctl == WAIT && UpdateInv(v, limit)
    ensures var w := WaitUpdate(v, inp, limit);
      && w.v.state == v.state && w.v.remote == v.remote && w.v.unclaimed == v.unclaimed && w.v.cmd == v.cmd
      && (Has(v, Failed) ==> w.ws == Stores(UnsetTry, inp.write1) && w.v.blTry.None?)
      && (!Has(v, Failed) && !Trial(v) ==> w.ws == Nil && w.v.blTry == v.blTry)
      && (v.update.None? ==> w.v.update.None?)
    ensures v.update.Some? ==> var u, u' := v.update.value, WaitUpdate(v, inp, limit).v.update;
      u' == if (Trying(v) || Testing(v)) && !inp.commitFin then
              Some(u.(status := if Trial(v) then TestingReboot else TestingNonReboot))
            else if Trial(v) && (inp.write1.Refused? || inp.write2.Refused?) then Some(u.(status := TestingReboot))
            else if Has(v, RetryDownload) && u.retries <= limit then Some(u) else None
  {
    if v.update.Some? {
      FinishLeads(if IsTrying(v.update) then Test(v) else v, inp, limit);
    }
    TestFacts(v);
    hide Stores, Finish, Test;
  }

  /** What becomes of an update that a wait step finds: it is untouched unless the step comes to it. */
  lemma WaitKeepsExactly(v: Vol, inp: Inputs, limit: int)
    requires v.ctl == WAIT && UpdateInv(v, limit) && v.update.Some?
    ensures var u, u' := v.update.value, Handler(v, inp, limit).v.update;
      u' == if !ComesToUpdate(v, inp, limit) then Some(u)
            else if (Trying(v) || Testing(v)) && !inp.commitFin then
              Some(u.(status := if Trial(v) then TestingReboot else TestingNonReboot))
            else if Trial(v) && (inp.write1.Refused? || inp.write2.Refused?) then Some(u.(status := TestingReboot))
            else if Has(v, RetryDownload) && u.retries <= limit then Some(u) else None
  {
    WaitComes(v, inp, limit);
    WaitUpdateLeads(v, inp, limit);
    hide WaitUpdate, Handler, ComesToUpdate, UpdateInv;
  }

  /** The rest of what a wait step remembers and writes: pv_try goes with an update that has failed. */
  lemma WaitRemembers(v: Vol, inp: Inputs, limit: int)
    requires v.ctl == WAIT && UpdateInv(v, limit)
    ensures var h := Handler(v, inp, limit);
      && h.v.state == v.state && h.v.remote == v.remote
      && (Has(v, Failed) && ComesToUpdate(v, inp, limit) ==> h.ws == Stores(UnsetTry, inp.write1) && h.v.blTry.None?)
      && (!Has(v, Failed) && !Trial(v) ==> h.ws == Nil && h.v.blTry == v.blTry)
  {
    WaitComes(v, inp, limit);
    WaitUpdateLeads(v, inp, limit);
    hide WaitUpdate, Handler, ComesToUpdate, UpdateInv;
  }

  /** Its command is the next step's, and only a device that is not claimed learns whether it is now. */
  lemma WaitHears(v: Vol, inp: Inputs, limit: int)
    requires v.ctl == WAIT && UpdateInv(v, limit)
    ensures var h := Handler(v, inp, limit);
      && h.v.cmd == (if h.v.ctl == COMMAND then inp.cmd else v.cmd)
      && h.v.unclaimed == (if v.remote && v.unclaimed && v.update.None? && !inp.exited && inp.delayFin && inp.registered
                           then inp.unclaimed else v.unclaimed)
  {
    WaitUpdateLeads(v, inp, limit);
    WaitUpdateNext(v, inp, limit);
    hide Atoi, WaitUpdate, UpdateInv;
  }

  // ---------------------------------------------------------------- run

  /** A run step ends in the wait state exactly when everything it checks or starts succeeds; what it runs is the
      revision that is being switched to, or the one that was booted, and an update begins exactly when
      pv_try is set, as a trial if that is what was booted. */
  lemma RunLeads(v: Vol, inp: Inputs, limit: int)
    requires v.ctl == RUN && UpdateInv(v, limit)
    ensures var h := Handler(v, inp, limit);
      && h.ws == Nil && h.v.blRev == v.blRev && h.v.blTry == v.blTry && h.v.done == v.done
      && h.v.ctl == (if inp.sumOk && inp.mountOk && inp.configOk && inp.startOk && (v.update.Some? || (inp.sigOk && inp.parseOk))
                     then WAIT else ROLLBACK)
      && h.v.state == (if v.update.Some? then v.update.value.pending
                       else if inp.sigOk && inp.parseOk then Some(v.blRev) else None)
      && h.v.remote == (if h.v.ctl == WAIT then inp.remoteMode else v.remote)
      && (v.update.Some? ==> h.v.update == v.update)
      && (v.update.None? ==> (h.v.update.Some? <==> v.blTry.Some? && v.blTry.value != ""))
      && (v.update.None? && h.v.update.Some? ==>
            h.v.update == Some(Update(if Some(v.blRev) == v.blTry then Try else Failed, h.v.state, 0, 0, false)))
  {
    assert Handler(v, inp, limit) == RunH(v, inp);
    assert if v.update.None? then v.state.None? else v.update.value.status == Transition;
    hide Handler, UpdateInv;
  }

  // ---------------------------------------------------------------- update

  /** The held update is there: it came with its objects, or this step downloads them within the retries. */
  predicate Fetches(u: Update, inp: Inputs, limit: int) {
    u.local || (inp.remoteOk && inp.retryFin && u.retries + 1 <= limit && inp.download.DownloadOk?)
  }

  predicate InstallsIt(inp: Inputs) { inp.linkOk && inp.jsonOk && inp.expandOk && !inp.write1.Refused? }

  /** An update step that fetches and installs its update reboots exactly for a runlevel that is not APP, and
      switches to it otherwise, if the platforms stop; pv_try is what it writes. */
  lemma UpdateInstalls(v: Vol, inp: Inputs, limit: int)
    requires v.ctl == UPDATE && UpdateInv(v, limit)
    requires Fetches(v.update.value, inp, limit) && InstallsIt(inp)
    ensures var h, u := Handler(v, inp, limit), v.update.value;
      && h.v.ctl == (if inp.runlevel <= 2 then REBOOT else if inp.stopOk then RUN else ROLLBACK)
      && u.pending.Some? && h.ws == Stores(SetTry(u.pending.value), inp.write1) && h.v.blTry == u.pending
      && h.v.update.Some? && h.v.update.value.pending == u.pending && h.v.state == v.state
      && h.v.update.value.status == (if inp.runlevel <= 2 then Rebooting else Transition)
      && h.v.update.value.local == u.local && h.v.update.value.retries == u.retries + if u.local then 0 else 1
  {
    DownloadLeads(v, inp, limit);
    InstallLeads(DownloadStep(v, inp, limit).v, inp);
    hide DownloadStep, Install, Stores;
  }

  /** One that does not goes back to waiting. The update is held on exactly when its download is to be tried
      again within the limit, and pv_try is unset exactly when its objects could not be linked. */
  lemma UpdateFails(v: Vol, inp: Inputs, limit: int)
    requires v.ctl == UPDATE && UpdateInv(v, limit)
    requires !(Fetches(v.update.value, inp, limit) && InstallsIt(inp))
    ensures var h, u := Handler(v, inp, limit), v.update.value;
      && h.v.ctl == WAIT && h.v.state == v.state
      && h.ws == (if Fetches(u, inp, limit) && !inp.linkOk then Stores(UnsetTry, inp.write1) else Nil)
      && h.v.update ==
           if u.local then None
           else if !inp.remoteOk || !inp.retryFin then (if Has(v, RetryDownload) && u.retries <= limit then Some(u) else None)
           else if u.retries + 1 <= limit && (inp.download.MetaFailed? || inp.download.ObjectFailed?) then
             Some(u.(status := RetryDownload, retries := u.retries + 1))
           else None
  {
    DownloadLeads(v, inp, limit);
    var d := DownloadStep(v, inp, limit);
    InstallLeads(d.v, inp);
    var i := if d.ok then Install(d.v, inp) else d;
    FinishLeads(i.v, inp, limit);
    hide DownloadStep, Install, Finish, Stores;
    assert Handler(v, inp, limit) == Eff(Finish(i.v, inp, limit).v.(ctl := WAIT), Finish(i.v, inp, limit).ws, true);
    hide Handler;
  }

  /** What the download leaves. */
  lemma DownloadLeads(v: Vol, inp: Inputs, limit: int)
    requires v.ctl == UPDATE && UpdateInv(v, limit)
    ensures var d, u := DownloadStep(v, inp, limit), v.update.value;
      && (d.ok <==> Fetches(u, inp, limit)) && d.ws == Nil && d.v.(update := v.update) == v
      && d.v.update == Some(
           if u.local || !inp.remoteOk || !inp.retryFin then u
           else if u.retries + 1 > limit then u.(retries := u.retries + 1)
           else u.(retries := u.retries + 1,
                   status := match inp.download case DownloadOk => Downloaded case NoSpace => NoDownload case _ => RetryDownload))
  {
    assert v.state.Some? && v.update.Some? && v.update.value.pending.Some?;
    hide UpdateInv;
  }

  /** And the installation. */
  lemma InstallLeads(v: Vol, inp: Inputs)
    requires v.state.Some? && v.update.Some? && v.update.value.pending.Some?
    ensures var i, u := Install(v, inp), v.update.value;
      && (i.ok <==> InstallsIt(inp))
      && i.v == v.(blTry := if inp.linkOk && inp.jsonOk && inp.expandOk then u.pending else v.blTry,
                   update := Some(if !inp.linkOk then u.(status := Failed)
                                  else if i.ok then u.(status := Installed, runlevel := inp.runlevel) else u))
      && i.ws == if i.ok then Stores(SetTry(u.pending.value), inp.write1) else Nil
  {
    hide Stores;
  }

  /** The object download runs exactly when its answer matters. */
  lemma DownloadMatters(v: Vol, inp: Inputs, limit: int)
    requires v.ctl == UPDATE && UpdateInv(v, limit)
    ensures Downloads(v, inp, limit) <==>
      DownloadStep(v, inp.(download := DownloadOk), limit) != DownloadStep(v, inp.(download := ObjectFailed), limit)
  {
  }

  // ---------------------------------------------------------------- where a remote update comes from

  /** A remote update on its way: offered, to be fetched again, being switched to, or tested after that. */
  predicate OnItsWay(u: Update) {
    !u.local && (u.status == Queued || u.status == RetryDownload || u.status == Transition || u.status == TestingNonReboot)
  }

  /** This wait step takes up the offered revision r. */
  predicate TakesUp(s: Sys, e: Event, limit: int, r: Rev) {
    && s.On? && e.Handle? && s.v.ctl == WAIT && s.v.update.None? && Online(s.v, e.inp)
    && e.inp.authed && e.inp.factoryDone && e.inp.metaOk && Offered(s.v, e.inp, limit) && e.inp.offer.rev == r
  }

  lemma OnItsWayStep(v: Vol, inp: Inputs, limit: int)
    requires UpdateInv(v, limit) && !Doomed(v.ctl)
    ensures var h := Handler(v, inp, limit);
      !Doomed(h.v.ctl) && h.v.update.Some? && OnItsWay(h.v.update.value) ==>
        || (v.update.Some? && OnItsWay(v.update.value) && h.v.update.value.pending == v.update.value.pending)
        || (v.ctl == WAIT && v.update.None? && Online(v, inp) && inp.authed && inp.factoryDone && inp.metaOk
            && Offered(v, inp, limit) && h.v.update.value.pending == Some(inp.offer.rev))
  {
    match v.ctl
    case WAIT =>
      if v.update.Some? {
        WaitKeepsExactly(v, inp, limit);
      } else {
        AcceptsExactly(v, inp, limit);
      }
      hide Handler, Offered;
    case UPDATE =>
      if Fetches(v.update.value, inp, limit) && InstallsIt(inp) {
        UpdateInstalls(v, inp, limit);
      } else {
        UpdateFails(v, inp, limit);
      }
      hide Handler;
    case RUN =>
      RunLeads(v, inp, limit);
      hide Handler;
    case COMMAND =>
      CommandLeads(v, inp, limit);
      hide Handler;
    case _ =>
  }

  /** In every run a remote update that is on its way was taken up in this session, by a wait step whose inputs
      met every condition. */
  lemma {:induction false} UpdateWasOffered(ss: seq<Sys>, es: seq<Event>, limit: int, n: nat)
    requires IsRun(ss, es, limit) && n <= |es| && ss[n].On? && !Doomed(ss[n].v.ctl)
    requires ss[n].v.update.Some? && OnItsWay(ss[n].v.update.value)
    ensures ss[n].v.update.value.pending.Some?
    ensures exists c: nat | c < n :: TakesUp(ss[c], es[c], limit, ss[n].v.update.value.pending.value) && forall k | c < k <= n :: ss[k].On?
  {
    hide IsRun, Step, Inv, TakesUp;
    LastEvent(ss, es, limit, n);
    var s, e := ss[n - 1], es[n - 1];
    BootHasNone(s, e, limit);
    InvHolds(ss, es, limit, n - 1);
    TakesUpOrKeeps(s, e, limit);
    if !TakesUp(s, e, limit, ss[n].v.update.value.pending.GetOr("")) {
      UpdateWasOffered(ss, es, limit, n - 1);
      var c: nat :| c < n - 1 && TakesUp(ss[c], es[c], limit, ss[n - 1].v.update.value.pending.value) && forall k | c < k <= n - 1 :: ss[k].On?;
      assert forall k | c < k <= n :: ss[k].On?;
    } else {
      assert forall k | n - 1 < k <= n :: ss[k].On?;
    }
  }

  lemma BootHasNone(s: Sys, e: Event, limit: int)
    ensures s.Off? && e.Boot? ==> Step(s, e, limit).On? && Step(s, e, limit).v.update.None?
  {
  }

  lemma TakesUpOrKeeps(s: Sys, e: Event, limit: int)
    requires s.On? && e.Handle? && Inv(s, limit) && Step(s, e, limit).On? && !Doomed(Step(s, e, limit).v.ctl)
    requires Step(s, e, limit).v.update.Some? && OnItsWay(Step(s, e, limit).v.update.value)
    ensures var p := Step(s, e, limit).v.update.value.pending;
      && !Doomed(s.v.ctl) && p.Some?
      && (TakesUp(s, e, limit, p.value)
          || (s.v.update.Some? && OnItsWay(s.v.update.value) && s.v.update.value.pending == p))
  {
    HandlerGood(s.v, e.inp, limit);
    OnItsWayStep(s.v, e.inp, limit);
    assert !Doomed(s.v.ctl);
    hide Handler, Offered;
  }

  // ---------------------------------------------------------------- commands and the rest of the table

  /** A command is obeyed only while no update is held; one that is not is forgotten. */
  lemma CommandLeads(v: Vol, inp: Inputs, limit: int)
    requires v.ctl == COMMAND
    ensures var h := Handler(v, inp, limit);
      && (h.v.ctl == REBOOT <==> v.update.None? && v.cmd == Some(RebootDevice))
      && (h.v.ctl == POWEROFF <==> v.update.None? && v.cmd == Some(PoweroffDevice))
      && (h.v.ctl == UPDATE <==>
           && v.update.None? && inp.sigOk && inp.parseOk && v.cmd.Some?
           && (v.cmd.value.LocalRun? || (v.cmd.value.MakeFactory? && v.unclaimed && inp.factoryOk)))
      && (h.v.ctl == REBOOT || h.v.ctl == POWEROFF || h.v.ctl == UPDATE || h.v.ctl == WAIT)
      && h.v.(ctl := v.ctl, cmd := v.cmd, update := v.update) == v && h.v.cmd.None? && h.ws == Nil
      && h.v.update == if h.v.ctl == UPDATE then Some(Update(UInit, Some(if v.cmd.value.LocalRun? then v.cmd.value.rev else "0"), 0, 0, true))
                       else v.update
  {
    assert Handler(v, inp, limit) == CommandH(v, inp);
    hide Handler;
  }

  /** Initialisation, the factory upload, and the way to a reboot, on which revision 0 stops as an error and any
      other marks its update as failed. */
  lemma OthersLead(v: Vol, inp: Inputs, limit: int)
    requires v.ctl == INIT || v.ctl == FACTORY_UPLOAD || v.ctl == ROLLBACK || v.ctl == ERROR
    ensures var h := Handler(v, inp, limit);
      && h.ws == Nil
      && h.v.ctl == (if v.ctl == INIT then (if inp.initOk then RUN else EXIT)
                     else if v.ctl == FACTORY_UPLOAD then (if inp.uploadOk then WAIT else FACTORY_UPLOAD)
                     else if v.ctl == ROLLBACK && v.state == Some("0") then ERROR else REBOOT)
      && h.v.(ctl := v.ctl, update := v.update, unclaimed := v.unclaimed) == v
      && h.v.unclaimed == (if v.ctl == INIT then inp.unclaimed else v.unclaimed)
      && (h.v.update.Some? <==> v.update.Some?)
      && (v.update.Some? ==>
            h.v.update.value
            == if v.ctl == ROLLBACK && v.state != Some("0") then v.update.value.(status := Failed) else v.update.value)
  {
  }
}
