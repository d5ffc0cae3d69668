/**
 The update protocol as a transition system: the controller loop of pantavisor.c driving the update
 state of updater.c and the boot environment of bootloader.c.

 `Env` is what survives a reboot. `Vol` is the memory of one boot session. One event runs one
 handler of the controller's state table to its end (`Handle`), loses power inside it after some
 number of environment writes (`Cut`), or powers the device on (`Boot`). Everything the handlers
 learn from outside (network, timers, signatures, checksums, container runtime, file system,
 environment store failures) is in the `Inputs` of the event.
 */
module UpdateProtocol {
  import opened Decimal
  import opened Wrappers

  type Rev = string

  // ---------------------------------------------------------------- persistent environment

  /** The two keys of the boot environment that survive a reboot. */
  datatype Env = Env(rev: Option<Rev>, tryRev: Option<Rev>)

  /** One completed write of the environment store. */
  datatype Write = SetRev(r: Rev) | SetTry(r: Rev) | UnsetTry

  function ApplyWrite(e: Env, w: Write): Env {
    match w
    case SetRev(r) => e.(rev := Some(r))
    case SetTry(r) => e.(tryRev := Some(r))
    case UnsetTry => e.(tryRev := None)
  }

  /** Completed writes, in order. */
  datatype Writes = Nil | Cons(w: Write, rest: Writes) {
    function Apply(e: Env): Env
      decreases this
    {
      if Nil? then e else rest.Apply(ApplyWrite(e, w))
    }

    function Then(more: Writes): Writes {
      if Nil? then more else Cons(w, rest.Then(more))
    }

    /** The writes that were completed when power was lost after `n` of them. */
    function Take(n: nat): Writes {
      if Nil? || n == 0 then Nil else Cons(w, rest.Take(n - 1))
    }
  }

  function One(w: Write): Writes { Cons(w, Nil) }

  /** How a write of the environment store ends: done; not done, and the caller is told; or not done although
      the store reports success, as the U-Boot store does when its last write() fails. */
  datatype WriteResult = Stored | Refused | Lost

  /** The writes completed by one call of the store. */
  function Stores(w: Write, res: WriteResult): Writes { if res.Stored? then One(w) else Nil }

  // ---------------------------------------------------------------- volatile state

  datatype Status =
    | UInit | Queued | Downloaded | Installed | Try | Transition | Rebooting | Updated | Done
    | Failed | NoDownload | NoSignature | NoParse | RetryDownload | TestingReboot
    | TestingNonReboot | DownloadProgress

  datatype Update = Update(status: Status, pending: Option<Rev>, retries: int, runlevel: int, local: bool)

  datatype Ctl =
    | INIT | RUN | WAIT | COMMAND | UPDATE | ROLLBACK | REBOOT | POWEROFF | ERROR | EXIT | FACTORY_UPLOAD

  datatype Cmd = UpdateMetadata | RebootDevice | PoweroffDevice | LocalRun(rev: Rev) | MakeFactory | RunGc | Unknown

  /** Memory of one boot session. `blRev`, `blTry` and `done` are the strings of struct
      pv_bootloader; `state` is the revision of the running state, if one is loaded. */
  datatype Vol = Vol(
    ctl: Ctl, blRev: Rev, blTry: Option<Rev>, done: Rev,
    state: Option<Rev>, update: Option<Update>,
    remote: bool, unclaimed: bool, cmd: Option<Cmd>)

  datatype Sys = Off(env: Env) | On(env: Env, v: Vol)

  // ---------------------------------------------------------------- events

  datatype Offer = NoOffer | Offer(rev: Rev, retries: int, inProgress: bool, parsed: bool)

  datatype Download = MetaFailed | NoSpace | ObjectFailed | DownloadOk

  /** Every answer a handler may get from outside while it runs. */
  datatype Inputs = Inputs(
    initOk: bool, sigOk: bool, parseOk: bool, sumOk: bool, mountOk: bool, configOk: bool, startOk: bool,
    exited: bool, remoteMode: bool, unclaimed: bool, delayFin: bool, registered: bool, authed: bool,
    rollbackFin: bool, factoryDone: bool, metaOk: bool, trailOk: bool, offer: Offer,
    commitFin: bool, write1: WriteResult, write2: WriteResult, cmd: Option<Cmd>, factoryOk: bool, uploadOk: bool,
    remoteOk: bool, retryFin: bool, download: Download, linkOk: bool, jsonOk: bool, expandOk: bool,
    runlevel: int, stopOk: bool)

  datatype Event = Boot(preferTry: bool) | Handle(inp: Inputs) | Cut(inp: Inputs, writes: nat)

  // ---------------------------------------------------------------- bootloader.c

  predicate InProgress(v: Vol) {
    v.blTry.Some? && v.blTry.value != ""
  }

  predicate TryingUpdate(v: Vol) {
    InProgress(v) && v.blRev == v.blTry.value
  }

  /** What the boot script runs: the stored pv_try if it prefers it and there is one, else the stored
      pv_rev, else the factory revision. */
  function Booted(e: Env, preferTry: bool): Rev {
    if preferTry && e.tryRev.Some? && e.tryRev.value != "" then e.tryRev.value else e.rev.GetOr("0")
  }

  /** pv_bl_early_init: load the command line, then overwrite `done` from the stored pv_rev. */
  function BootVol(e: Env, preferTry: bool): Vol {
    var r := Booted(e, preferTry);
    Vol(INIT, r, e.tryRev, e.rev.GetOr(r), None, None, false, true, None)
  }

  // ---------------------------------------------------------------- updater.c

  predicate IsTransitioning(u: Option<Update>) { u.Some? && u.value.status == Transition }

  predicate IsTrying(u: Option<Update>) { u.Some? && (u.value.status == Transition || u.value.status == Try) }

  predicate IsTesting(u: Option<Update>) {
    u.Some? && (u.value.status == TestingReboot || u.value.status == TestingNonReboot)
  }

  /** The effect of a handler: the new memory, the completed environment writes in order, and whether
      the C function reported success. */
  datatype Eff = Eff(v: Vol, ws: Writes, ok: bool)

  function WithStatus(v: Vol, s: Status): Vol
    requires v.update.Some?
  {
    v.(update := Some(v.update.value.(status := s)))
  }

  /** pv_update_resume */
  function Resume(v: Vol): Vol {
    if v.update.Some? || !InProgress(v) then v
    else v.(update := Some(Update(if TryingUpdate(v) then Try else Failed, None, 0, 0, false)))
  }

  /** pv_bootloader_set_commited: memory first, then pv_rev, then pv_try; stops at the first error. */
  function SetCommitted(v: Vol, r: Rev, inp: Inputs): Eff {
    var v1 := v.(blRev := r, done := r);
    if inp.write1.Refused? then Eff(v1, Nil, false)
    else Eff(v1.(blTry := None), Stores(SetRev(r), inp.write1).Then(Stores(UnsetTry, inp.write2)), !inp.write2.Refused?)
  }

  /** pv_update_finish */
  function Finish(v: Vol, inp: Inputs, limit: int): Eff {
    if v.update.None? then Eff(v, Nil, true) else
    var u := v.update.value;
    if u.status == Failed then
      Eff(v.(blTry := None, update := None), Stores(UnsetTry, inp.write1), true)
    else if u.status == RetryDownload && u.retries <= limit then
      Eff(v, Nil, true)
    else if u.status == TestingReboot then
      var c := SetCommitted(v, v.state.GetOr(""), inp);
      if c.ok then Eff(c.v.(update := None), c.ws, true) else c
    else
      Eff(v.(update := None), Nil, true)
  }

  /** pv_update_test */
  function Test(v: Vol): Vol {
    if v.update.None? then v
    else if v.update.value.status == Try then WithStatus(v, TestingReboot)
    else if v.update.value.status == Transition then WithStatus(v, TestingNonReboot)
    else v
  }

  /** trail_get_new_steps: when the offered step becomes the held update. */
  predicate Accepts(v: Vol, inp: Inputs, limit: int) {
    && v.update.None?
    && inp.offer.Offer? && !inp.offer.inProgress && inp.offer.parsed
    && Atoi(inp.offer.rev) >= Atoi(v.state.GetOr(""))
    && inp.offer.retries <= limit
    && inp.sigOk && inp.parseOk
  }

  /** pv_updater_check_for_updates: (memory, whether an update is to be processed) */
  function CheckForUpdates(v: Vol, inp: Inputs, limit: int): (Vol, bool) {
    if !inp.remoteOk then (v, false)
    else if v.update.Some? && v.update.value.status == RetryDownload then (v, true)
    else if inp.trailOk && Accepts(v, inp, limit) then
      (v.(update := Some(Update(Queued, Some(inp.offer.rev), inp.offer.retries, 0, false))), true)
    else (v, false)
  }

  /** Whether the object download of pv_update_download runs in this handler. */
  predicate Downloads(v: Vol, inp: Inputs, limit: int) {
    && v.state.Some? && v.update.Some? && v.update.value.pending.Some? && !v.update.value.local
    && inp.remoteOk && inp.retryFin && v.update.value.retries + 1 <= limit
  }

  /** pv_update_download, including pv_update_check_download_retry */
  function DownloadStep(v: Vol, inp: Inputs, limit: int): Eff {
    if v.state.None? || v.update.None? || v.update.value.pending.None? then Eff(v, Nil, false)
    else if v.update.value.local then Eff(v, Nil, true)
    else if !inp.remoteOk || !inp.retryFin then Eff(v, Nil, false)
    else
      var v1 := v.(update := Some(v.update.value.(retries := v.update.value.retries + 1)));
      if v1.update.value.retries > limit then Eff(v1, Nil, false) else
      match inp.download
      case MetaFailed => Eff(WithStatus(v1, RetryDownload), Nil, false)
      case NoSpace => Eff(WithStatus(v1, NoDownload), Nil, false)
      case ObjectFailed => Eff(WithStatus(v1, RetryDownload), Nil, false)
      case DownloadOk => Eff(WithStatus(v1, Downloaded), Nil, true)
  }

  /** pv_update_install: links, state json, expanded jsons, then pv_try. */
  function Install(v: Vol, inp: Inputs): Eff {
    if v.state.None? || v.update.None? || v.update.value.pending.None? then Eff(v, Nil, false)
    else if !inp.linkOk then Eff(WithStatus(v, Failed), Nil, false)
    else if !inp.jsonOk || !inp.expandOk then Eff(v, Nil, false)
    else
      var r := v.update.value.pending.value;
      var v1 := v.(blTry := Some(r));
      if inp.write1.Refused? then Eff(v1, Nil, false)
      else Eff(v1.(update := Some(v.update.value.(status := Installed, runlevel := inp.runlevel))), Stores(SetTry(r), inp.write1), true)
  }

  // ---------------------------------------------------------------- pantavisor.c handlers

  function To(v: Vol, c: Ctl): Eff { Eff(v.(ctl := c), Nil, true) }

  /** _pv_run */
  function RunH(v: Vol, inp: Inputs): Eff {
    var v1 := Resume(v);
    if IsTransitioning(v1.update) then
      StartH(v1.(state := v1.update.value.pending), inp)
    else if !inp.sigOk then To(v1, ROLLBACK)
    else if !inp.parseOk then
      To(v1.(state := None, update := if v1.update.Some? then Some(v1.update.value.(pending := None)) else None), ROLLBACK)
    else
      StartH(v1.(state := Some(v1.blRev),
                 update := if v1.update.Some? then Some(v1.update.value.(pending := Some(v1.blRev))) else None), inp)
  }

  /** The second half of _pv_run: checksums, volumes, configuration, platforms. */
  function StartH(v: Vol, inp: Inputs): Eff {
    if v.state.None? || !inp.sumOk || !inp.mountOk || !inp.configOk || !inp.startOk then To(v, ROLLBACK)
    else To(v.(remote := inp.remoteMode), WAIT)
  }

  /** pv_wait_update */
  function WaitUpdate(v: Vol, inp: Inputs, limit: int): Eff {
    if v.update.None? then To(v, WAIT) else
    var v1 := if IsTrying(v.update) then Test(v) else v;
    if IsTesting(v1.update) && !inp.commitFin then To(v1, WAIT) else
    var f := Finish(v1, inp, limit);
    Eff(f.v.(ctl := if f.ok then WAIT else ROLLBACK), f.ws, true)
  }

  /** pv_wait_network */
  function WaitNetwork(v: Vol, inp: Inputs, limit: int): Eff {
    if !inp.authed then
      if IsTrying(v.update) then To(v, if inp.rollbackFin then ROLLBACK else WAIT)
      else if IsTesting(v.update) then To(v, ROLLBACK)
      else To(v, WAIT)
    else if !inp.factoryDone then To(v, FACTORY_UPLOAD)
    else if !inp.metaOk then WaitUpdate(v, inp, limit)
    else
      var (v1, found) := CheckForUpdates(v, inp, limit);
      if found then To(v1, UPDATE) else WaitUpdate(v1, inp, limit)
  }

  /** pv_wait_unclaimed */
  function WaitUnclaimed(v: Vol, inp: Inputs): Eff {
    if !inp.registered then To(v, WAIT) else To(v.(unclaimed := inp.unclaimed), FACTORY_UPLOAD)
  }

  /** _pv_wait */
  function WaitH(v: Vol, inp: Inputs, limit: int): Eff {
    if inp.exited then To(v, if IsTrying(v.update) || IsTesting(v.update) then ROLLBACK else REBOOT)
    else
      var e :=
        if v.remote && (!v.unclaimed || v.update.None?) then
          if !inp.delayFin then To(v, WAIT)
          else if v.unclaimed then WaitUnclaimed(v, inp)
          else WaitNetwork(v, inp, limit)
        else WaitUpdate(v, inp, limit);
      if e.v.ctl != WAIT || inp.cmd.None? then e
      else e.(v := e.v.(ctl := COMMAND, cmd := inp.cmd))
  }

  /** pv_update_get_step_local */
  function LocalStep(v: Vol, r: Rev, inp: Inputs): Eff {
    if inp.sigOk && inp.parseOk then To(v.(update := Some(Update(UInit, Some(r), 0, 0, true))), UPDATE)
    else To(v, WAIT)
  }

  /** _pv_command */
  function CommandH(v: Vol, inp: Inputs): Eff {
    var v1 := v.(cmd := None);
    if v.cmd.None? then To(v, WAIT) else
    match v.cmd.value
    case RebootDevice => To(v1, if v.update.Some? then WAIT else REBOOT)
    case PoweroffDevice => To(v1, if v.update.Some? then WAIT else POWEROFF)
    case LocalRun(r) => if v.update.Some? then To(v1, WAIT) else LocalStep(v1, r, inp)
    case MakeFactory =>
      if v.update.Some? || !v.unclaimed || !inp.factoryOk then To(v1, WAIT) else LocalStep(v1, "0", inp)
    case _ => To(v1, WAIT)
  }

  /** _pv_update, including pv_update_requires_reboot */
  function UpdateH(v: Vol, inp: Inputs, limit: int): Eff {
    var d := DownloadStep(v, inp, limit);
    var i := if d.ok then Install(d.v, inp) else d;
    if !i.ok then
      var f := Finish(i.v, inp, limit);
      Eff(f.v.(ctl := WAIT), i.ws.Then(f.ws), true)
    else if i.v.update.value.runlevel <= 2 then
      Eff(i.v.(ctl := REBOOT, update := Some(i.v.update.value.(status := Rebooting, runlevel := 1))), i.ws, true)
    else
      Eff(WithStatus(i.v, Transition).(ctl := if inp.stopOk then RUN else ROLLBACK), i.ws, true)
  }

  /** _pv_rollback */
  function RollbackH(v: Vol): Eff {
    if v.state == Some("0") then To(v, ERROR)
    else To(if v.update.Some? then WithStatus(v, Failed) else v, REBOOT)
  }

  /** state_table: the handler of the current controller state. REBOOT, POWEROFF and EXIT end the
      session (see `Step`). */
  function Handler(v: Vol, inp: Inputs, limit: int): Eff {
    match v.ctl
    case INIT => To(v.(unclaimed := inp.unclaimed), if inp.initOk then RUN else EXIT)
    case RUN => RunH(v, inp)
    case WAIT => WaitH(v, inp, limit)
    case COMMAND => CommandH(v, inp)
    case UPDATE => UpdateH(v, inp, limit)
    case ROLLBACK => RollbackH(v)
    case ERROR => To(v, REBOOT)
    case FACTORY_UPLOAD => To(v, if inp.uploadOk then WAIT else FACTORY_UPLOAD)
    case REBOOT => Eff(v, Nil, true)
    case POWEROFF => Eff(v, Nil, true)
    case EXIT => Eff(v, Nil, true)
  }

  predicate Ends(c: Ctl) { c == REBOOT || c == POWEROFF || c == EXIT }

  // ---------------------------------------------------------------- runs

  /** A device that is off can only be booted; one that is on runs handlers until power is lost. */
  predicate Applies(s: Sys, e: Event) { s.Off? <==> e.Boot? }

  /** The state after one event. */
  function Step(s: Sys, e: Event, limit: int): Sys {
    match (s, e)
    case (Off(env), Boot(p)) => On(env, BootVol(env, p))
    case (On(env, v), Handle(inp)) =>
      if Ends(v.ctl) then Off(env)
      else var h := Handler(v, inp, limit); On(h.ws.Apply(env), h.v)
    case (On(env, v), Cut(inp, n)) =>
      var h := Handler(v, inp, limit);
      Off(h.ws.Take(n).Apply(env))
    case _ => s
  }

  /** A run: `ss[i]` is the state before event `es[i]`; it starts with the device powered off. */
  ghost predicate IsRun(ss: seq<Sys>, es: seq<Event>, limit: int) {
    && |ss| == |es| + 1
    && ss[0].Off?
    && forall i | 0 <= i < |es| :: Applies(ss[i], es[i]) && ss[i + 1] == Step(ss[i], es[i], limit)
  }
}
