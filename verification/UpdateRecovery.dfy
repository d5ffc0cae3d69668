/**
 What the update protocol leaves behind when it is interrupted: crash consistency of the commit, restart
 of an interrupted commit, and the rollback point seen by the garbage collector.
 */
module UpdateRecovery {
  import opened Wrappers
  import opened UpdateProtocol
  import opened UpdateSafety

  /** The wait step gets as far as the update: at once in local mode or before the device is claimed, else
      past the delay, the login and the factory upload. */
  predicate GetsToUpdate(v: Vol, inp: Inputs) {
    v.remote && !v.unclaimed ==> inp.delayFin && inp.authed && inp.factoryDone
  }

  /** The wait step runs the commit. */
  predicate Commits(v: Vol, inp: Inputs) { CommitsAt(v, inp) && GetsToUpdate(v, inp) }

  /** Power lost anywhere inside a commit of R over `old`, and a commit that runs to its end whatever becomes
      of its writes, leaves (old, R), (R, R), (R, none) or (old, none), in every run; the last exactly when
      the first write is lost and the second one done. */
  lemma CommitIsCrashConsistent(ss: seq<Sys>, es: seq<Event>, limit: int, i: nat, inp: Inputs, w: nat)
    requires IsRun(ss, es, limit) && i <= |es| && ss[i].On? && CommitsAt(ss[i].v, inp)
    ensures ss[i].v.state.Some?
    ensures var old', r := ss[i].env.rev, ss[i].v.state;
      forall e | e == Cut(inp, w) || e == Handle(inp) ::
        var env := Step(ss[i], e, limit).env;
        && (env == Env(old', r) || env == Env(r, r) || env == Env(r, None) || env == Env(old', None))
        && (old' != r ==> (env == Env(old', None) <==>
             Commits(ss[i].v, inp) && inp.write1.Lost? && inp.write2.Stored? && (e.Cut? ==> w > 0)))
  {
    InvHolds(ss, es, limit, i);
    TrialsJustified(ss, es, limit, i);
    CommitLeaves(ss[i], inp, limit, w);
    hide IsRun, Step, Commits;
  }

  lemma CommitLeaves(s: Sys, inp: Inputs, limit: int, w: nat)
    requires s.On? && UpdateInv(s.v, limit) && CommitsAt(s.v, inp) && s.env.tryRev == s.v.state
    ensures s.v.state.Some?
    ensures var old', r := s.env.rev, s.v.state;
      forall e | e == Cut(inp, w) || e == Handle(inp) ::
        var env := Step(s, e, limit).env;
        && (env == Env(old', r) || env == Env(r, r) || env == Env(r, None) || env == Env(old', None))
        && (old' != r ==> (env == Env(old', None) <==>
             Commits(s.v, inp) && inp.write1.Lost? && inp.write2.Stored? && (e.Cut? ==> w > 0)))
  {
    CommitWait(s.v, inp, limit);
    hide Handler, GetsToUpdate, UpdateInv;
    CommitPrefix(s.env, inp, s.v.state.value, w);
  }

  /** What a wait step that meets the commit condition does, by the results of its writes. */
  lemma CommitWait(v: Vol, inp: Inputs, limit: int)
    requires UpdateInv(v, limit) && CommitsAt(v, inp)
    ensures v.state.Some?
    ensures var h, r := Handler(v, inp, limit), v.state.value;
      if !GetsToUpdate(v, inp) then h.ws == Nil && h.v.done == v.done && h.v.blRev == v.blRev
      else
        && h.v.done == r == h.v.blRev && h.v.state == v.state
        && h.ws == (if inp.write1.Refused? then Nil else Stores(SetRev(r), inp.write1).Then(Stores(UnsetTry, inp.write2)))
        && (if inp.write1.Refused? || inp.write2.Refused? then h.v.ctl == ROLLBACK
            else h.v.update.None? && h.v.ctl == if inp.cmd.None? then WAIT else COMMAND)
  {
    var v1 := if IsTrying(v.update) then Test(v) else v;
    CommitFinishes(v1, inp, limit);
    TestFacts(v);
    assert Has(v1, TestingReboot) && v1.state == v.state;
    hide Finish, Test, Accepts, Stores;
  }

  lemma CommitFinishes(v: Vol, inp: Inputs, limit: int)
    requires v.state.Some? && Has(v, TestingReboot)
    ensures var f, r := Finish(v, inp, limit), v.state.value;
      && f.v.done == r == f.v.blRev && f.v.state == v.state && f.v.ctl == v.ctl
      && f.ws == (if inp.write1.Refused? then Nil else Stores(SetRev(r), inp.write1).Then(Stores(UnsetTry, inp.write2)))
      && f.ok == !(inp.write1.Refused? || inp.write2.Refused?) && (f.ok ==> f.v.update.None?)
  {
    hide Stores;
  }

  lemma OneApplies(w: Write, e: Env)
    ensures One(w).Apply(e) == ApplyWrite(e, w)
  {
  }

  /** The stored pair behind any number of the writes of a commit. */
  lemma CommitPrefix(env: Env, inp: Inputs, r: Rev, n: nat)
    requires env.tryRev == Some(r)
    ensures var ws := Stores(SetRev(r), inp.write1).Then(Stores(UnsetTry, inp.write2));
      && ws.Apply(env) == Env(if inp.write1.Stored? then Some(r) else env.rev, if inp.write2.Stored? then None else Some(r))
      && ws.Take(n).Apply(env) == (if n == 0 then env else if inp.write1.Stored? && n == 1 then Env(Some(r), Some(r)) else ws.Apply(env))
    ensures Nil.Apply(env) == Nil.Take(n).Apply(env) == env
  {
    CommitStores(r, inp.write1, inp.write2);
    var c := One(UnsetTry);
    OneApplies(UnsetTry, env);
    OneApplies(SetRev(r), env);
    OneApplies(UnsetTry, Env(Some(r), Some(r)));
    if n > 0 {
      assert One(SetRev(r)).Take(n) == Cons(SetRev(r), Nil.Take(n - 1));
      assert c.Take(n) == Cons(UnsetTry, Nil.Take(n - 1));
      assert Cons(SetRev(r), c).Take(n) == Cons(SetRev(r), c.Take(n - 1));
      assert n > 1 ==> c.Take(n - 1) == Cons(UnsetTry, Nil.Take(n - 2));
    }
  }

  /** Three events of a boot session: power on, initialise, run the loaded revision. */
  function Started(env: Env, preferTry: bool, i0: Inputs, i1: Inputs, limit: int): Sys {
    Step(Step(Step(Off(env), Boot(preferTry), limit), Handle(i0), limit), Handle(i1), limit)
  }

  /** Memory of a session that has just begun the trial of r. */
  function TrialVol(env: Env, r: Rev, i0: Inputs, i1: Inputs): Vol {
    Vol(WAIT, r, Some(r), env.rev.GetOr(r), Some(r), Some(Update(Try, Some(r), 0, 0, false)),
        i1.remoteMode, i0.unclaimed, None)
  }

  /** The trial of a stored pv_try begins again from (old, R) booted as pv_try and from an interrupted
      commit (R, R), whichever key the boot script reads. */
  lemma TrialRestarts(env: Env, preferTry: bool, i0: Inputs, i1: Inputs, limit: int)
    requires env.tryRev.Some? && env.tryRev.value != ""
    requires preferTry || env.rev == env.tryRev
    requires i0.initOk && PassedRun(i1)
    ensures Started(env, preferTry, i0, i1, limit) == On(env, TrialVol(env, env.tryRev.value, i0, i1))
  {
    FirstHandlers(BootVol(env, preferTry), i0, i1, env.tryRev.value, limit);
    hide Handler;
  }

  lemma FirstHandlers(v0: Vol, i0: Inputs, i1: Inputs, r: Rev, limit: int)
    requires v0 == Vol(INIT, r, Some(r), v0.done, None, None, false, true, None) && r != ""
    requires i0.initOk && PassedRun(i1)
    ensures var v1 := v0.(ctl := RUN, unclaimed := i0.unclaimed);
      && Handler(v0, i0, limit) == Eff(v1, Nil, true)
      && Handler(v1, i1, limit) == Eff(v1.(ctl := WAIT, state := Some(r), remote := i1.remoteMode,
                                 update := Some(Update(Try, Some(r), 0, 0, false))), Nil, true)
  {
  }

  // ---------------------------------------------------------------- the end of a trial

  /** In every run a trial that meets the commit condition ends with (R, none) stored, R as rollback point
      and no update held, as soon as the step gets to the update and its writes are done; and if not, with
      what the writes that were done leave. */
  lemma PassedTrialCommits(ss: seq<Sys>, es: seq<Event>, limit: int, i: nat, inp: Inputs)
    requires IsRun(ss, es, limit) && i <= |es| && ss[i].On? && CommitsAt(ss[i].v, inp)
    ensures var s, r := Step(ss[i], Handle(inp), limit), ss[i].v.state;
      && s.On?
      && s.env == (if !GetsToUpdate(ss[i].v, inp) || inp.write1.Refused? then ss[i].env
                   else Env(if inp.write1.Stored? then r else ss[i].env.rev, if inp.write2.Stored? then None else r))
      && (GetsToUpdate(ss[i].v, inp) && !inp.write1.Refused? && !inp.write2.Refused? ==>
            s.v.update.None? && Some(s.v.done) == r && s.v.ctl == if inp.cmd.None? then WAIT else COMMAND)
  {
    InvHolds(ss, es, limit, i);
    TrialsJustified(ss, es, limit, i);
    CommitWait(ss[i].v, inp, limit);
    hide Handler, GetsToUpdate;
    CommitPrefix(ss[i].env, inp, ss[i].v.state.value, 0);
  }

  // ---------------------------------------------------------------- the rollback point

  /** The rollback point known to this session is the stored one. */
  predicate DoneIsStored(env: Env, v: Vol) {
    env.rev.Some? ==> v.done == env.rev.value
  }

  /** The guard of the failing branch: a commit whose first write is refused or lost, of a revision that is
      not the one stored already. */
  predicate FailsCommit(s: Sys, e: Event) {
    && s.On? && e.Handle? && Commits(s.v, e.inp) && !e.inp.write1.Stored?
    && s.env.rev.Some? && s.v.state != s.env.rev
  }

  /** Any other handler leaves the rollback point and pv_rev alone. */
  lemma OthersKeepDone(v: Vol, inp: Inputs, limit: int)
    requires UpdateInv(v, limit) && !Commits(v, inp)
    ensures var h := Handler(v, inp, limit); h.v.done == v.done && h.v.blRev == v.blRev && TryWrites(h.ws)
  {
    hide Handler, GetsToUpdate;
    HandlerGood(v, inp, limit);
    if CommitsAt(v, inp) {
      CommitWait(v, inp, limit);
    }
  }

  /** One event: the rollback point in memory stops being the stored pv_rev exactly at a failing commit. */
  lemma DoneStep(s: Sys, e: Event, limit: int)
    requires s.On? && e.Handle? && Inv(s, limit) && Step(s, e, limit).On?
    ensures var s' := Step(s, e, limit);
      && (DoneIsStored(s.env, s.v) ==> (!DoneIsStored(s'.env, s'.v) <==> FailsCommit(s, e)))
      && (!Commits(s.v, e.inp) ==> s'.v.done == s.v.done && s'.v.blRev == s.v.blRev && s'.env.rev == s.env.rev)
  {
    hide Handler, Commits;
    if Commits(s.v, e.inp) {
      DoneAtCommit(s, e.inp, limit);
    } else {
      OthersKeepDone(s.v, e.inp, limit);
      PrefixRev(s.env, Handler(s.v, e.inp, limit).ws, 0);
    }
  }

  lemma DoneAtCommit(s: Sys, inp: Inputs, limit: int)
    requires s.On? && UpdateInv(s.v, limit) && Commits(s.v, inp)
    ensures var h := Handler(s.v, inp, limit);
      && Some(h.v.done) == s.v.state == Some(h.v.blRev)
      && h.ws.Apply(s.env).rev == (if inp.write1.Stored? then s.v.state else s.env.rev)
  {
    CommitWait(s.v, inp, limit);
    hide Handler, GetsToUpdate, UpdateInv;
    CommitStores(s.v.state.value, inp.write1, inp.write2);
    assert One(UnsetTry).Apply(s.env).rev == s.env.rev;
    assert One(UnsetTry).Apply(s.env.(rev := s.v.state)).rev == s.v.state;
  }

  // ---------------------------------------------------------------- one commit a session

  /** No trial can begin or go on in this session. */
  predicate TrialOver(v: Vol) {
    Doomed(v.ctl) || (v.ctl != INIT && !Trial(v) && (v.ctl == RUN ==> v.update.Some?))
  }

  lemma TrialStaysOver(v: Vol, inp: Inputs, limit: int)
    requires UpdateInv(v, limit) && !Ends(v.ctl)
    ensures TrialOver(v) || Commits(v, inp) ==> TrialOver(Handler(v, inp, limit).v)
  {
    HandlerGood(v, inp, limit);
    HandlerTrial(v, inp, limit);
    HandlerNext(v, inp, limit);
    if Commits(v, inp) {
      CommitWait(v, inp, limit);
    }
    hide Handler, GetsToUpdate, Shaped, KeepsDone;
  }

  /** In this session, which has not ended, a commit failed. */
  ghost predicate Ahead(ss: seq<Sys>, es: seq<Event>, n: nat)
    requires |ss| == |es| + 1 && n < |ss|
  {
    exists c: nat | c < n :: FailsCommit(ss[c], es[c]) && forall k | c < k <= n :: ss[k].On?
  }

  lemma AheadStep(ss: seq<Sys>, es: seq<Event>, n: nat)
    requires |ss| == |es| + 1 && 0 < n < |ss| && ss[n].On?
    ensures Ahead(ss, es, n) <==> (ss[n - 1].On? && Ahead(ss, es, n - 1)) || FailsCommit(ss[n - 1], es[n - 1])
  {
    hide FailsCommit;
    if ss[n - 1].On? && Ahead(ss, es, n - 1) {
      var c: nat :| c < n - 1 && FailsCommit(ss[c], es[c]) && forall k | c < k <= n - 1 :: ss[k].On?;
      assert forall k | c < k <= n :: ss[k].On?;
    }
  }

  /** In every run the rollback point in memory is the stored pv_rev, as far as one is stored, if and only if
      no commit has failed in this session; and after one that failed no other begins. */
  lemma {:induction false} RollbackPointIsStored(ss: seq<Sys>, es: seq<Event>, limit: int, n: nat)
    requires IsRun(ss, es, limit) && n <= |es| && ss[n].On?
    ensures DoneIsStored(ss[n].env, ss[n].v) <==> !Ahead(ss, es, n)
    ensures Ahead(ss, es, n) ==> TrialOver(ss[n].v) && ss[n].v.done == ss[n].v.blRev
  {
    hide IsRun, Step, Inv, FailsCommit, DoneIsStored, TrialOver, Commits;
    LastEvent(ss, es, limit, n);
    var s, e := ss[n - 1], es[n - 1];
    AheadStep(ss, es, n);
    NoFailure(s, e);
    if s.Off? {
      BootStores(s, e, limit);
    } else {
      RollbackPointIsStored(ss, es, limit, n - 1);
      InvHolds(ss, es, limit, n - 1);
      StoredStep(s, e, limit);
    }
  }

  lemma StoredStep(s: Sys, e: Event, limit: int)
    requires s.On? && e.Handle? && Inv(s, limit) && Step(s, e, limit).On?
    requires !DoneIsStored(s.env, s.v) ==> TrialOver(s.v) && s.v.done == s.v.blRev
    ensures var s' := Step(s, e, limit);
      && (DoneIsStored(s'.env, s'.v) <==> DoneIsStored(s.env, s.v) && !FailsCommit(s, e))
      && (!DoneIsStored(s'.env, s'.v) ==> TrialOver(s'.v) && s'.v.done == s'.v.blRev)
  {
    DoneStep(s, e, limit);
    TrialStaysOver(s.v, e.inp, limit);
    if Commits(s.v, e.inp) {
      DoneAtCommit(s, e.inp, limit);
    }
    hide Handler, GetsToUpdate;
  }

  lemma BootStores(s: Sys, e: Event, limit: int)
    requires s.Off? && e.Boot?
    ensures var s' := Step(s, e, limit); s'.On? && DoneIsStored(s'.env, s'.v)
  {
  }

  lemma NoFailure(s: Sys, e: Event)
    ensures s.Off? ==> !FailsCommit(s, e)
  {
  }

  // ---------------------------------------------------------------- what a session was booted as

  /** This session was booted as r. */
  ghost predicate BootedAs(ss: seq<Sys>, es: seq<Event>, n: nat, r: Rev)
    requires |ss| == |es| + 1 && n < |ss|
  {
    exists b: nat | b < n :: BootsAs(ss[b], es[b], r) && forall k | b < k <= n :: ss[k].On?
  }

  predicate BootsAs(s: Sys, e: Event, r: Rev) { s.Off? && e.Boot? && Booted(s.env, e.preferTry) == r }

  lemma BootedStep(ss: seq<Sys>, es: seq<Event>, n: nat, r: Rev)
    requires |ss| == |es| + 1 && 0 < n < |ss| && ss[n].On?
    ensures BootedAs(ss, es, n, r) <==> (ss[n - 1].On? && BootedAs(ss, es, n - 1, r)) || BootsAs(ss[n - 1], es[n - 1], r)
  {
    hide BootsAs;
    if ss[n - 1].On? && BootedAs(ss, es, n - 1, r) {
      var b: nat :| b < n - 1 && BootsAs(ss[b], es[b], r) && forall k | b < k <= n - 1 :: ss[k].On?;
      assert forall k | b < k <= n :: ss[k].On?;
    }
  }

  /** What a session knows of its boot: blRev is what was booted, a trial runs it, and where no pv_rev is
      stored it is the rollback point too. */
  predicate KnowsBoot(s: Sys) {
    s.On? ==> (Live(s.v.ctl) && Trial(s.v) ==> s.v.state == Some(s.v.blRev)) && (s.env.rev.None? ==> s.v.done == s.v.blRev)
  }

  lemma KnowsBootStep(s: Sys, e: Event, limit: int)
    requires s.On? && e.Handle? && Inv(s, limit) && Step(s, e, limit).On? && KnowsBoot(s)
    ensures KnowsBoot(Step(s, e, limit)) && Step(s, e, limit).v.blRev == s.v.blRev
  {
    DoneStep(s, e, limit);
    HandlerTrial(s.v, e.inp, limit);
    if Commits(s.v, e.inp) {
      DoneAtCommit(s, e.inp, limit);
    }
    hide Handler, GetsToUpdate;
  }

  lemma BootKnows(s: Sys, e: Event, limit: int)
    requires s.Off? && e.Boot?
    ensures KnowsBoot(Step(s, e, limit)) && BootsAs(s, e, Step(s, e, limit).v.blRev)
  {
  }

  /** In every run blRev is the revision the session was booted as. */
  lemma {:induction false} BootIsKnown(ss: seq<Sys>, es: seq<Event>, limit: int, n: nat, r: Rev)
    requires IsRun(ss, es, limit) && n <= |es| && ss[n].On?
    ensures KnowsBoot(ss[n]) && (BootedAs(ss, es, n, r) <==> ss[n].v.blRev == r)
  {
    hide IsRun, Step, Inv, Booted, BootedAs, KnowsBoot;
    LastEvent(ss, es, limit, n);
    var s, e := ss[n - 1], es[n - 1];
    BootedStep(ss, es, n, r);
    if s.On? {
      BootIsKnown(ss, es, limit, n - 1, r);
      InvHolds(ss, es, limit, n - 1);
      KnowsBootStep(s, e, limit);
    } else {
      BootKnows(s, e, limit);
    }
  }

  /** What the session falls back to: the stored pv_rev, unless a commit failed in it or none is stored; then
      what it was booted as. */
  ghost predicate FallsBackTo(ss: seq<Sys>, es: seq<Event>, n: nat, r: Rev)
    requires |ss| == |es| + 1 && n < |ss|
  {
    if ss[n].env.rev.Some? && !Ahead(ss, es, n) then ss[n].env.rev == Some(r) else BootedAs(ss, es, n, r)
  }

  /** In every run that is the rollback point in memory. */
  lemma RollbackPointIs(ss: seq<Sys>, es: seq<Event>, limit: int, n: nat, r: Rev)
    requires IsRun(ss, es, limit) && n <= |es| && ss[n].On?
    ensures ss[n].v.done == r <==> FallsBackTo(ss, es, n, r)
  {
    RollbackPointIsStored(ss, es, limit, n);
    BootIsKnown(ss, es, limit, n, r);
    hide BootedAs, Ahead, TrialOver;
  }

  // ---------------------------------------------------------------- failing commits that do happen

  /** The first three events of a session that tries r. */
  lemma TrialBegins(env: Env, i0: Inputs, i1: Inputs, limit: int) returns (ss: seq<Sys>, es: seq<Event>)
    requires env.tryRev.Some? && env.tryRev.value != "" && i0.initOk && PassedRun(i1)
    ensures |ss| == |es| + 1 && IsRun(ss, es, limit)
    ensures ss[0] == Off(env) && ss[|es|] == On(env, TrialVol(env, env.tryRev.value, i0, i1))
  {
    es := [Boot(true), Handle(i0), Handle(i1)];
    var v := BootVol(env, true);
    FirstHandlers(v, i0, i1, env.tryRev.value, limit);
    hide Handler;
    var s1 := Step(Off(env), es[0], limit);
    var s2 := Step(s1, es[1], limit);
    ss := [Off(env), s1, s2, Step(s2, es[2], limit)];
  }

  lemma OneMoreEvent(ss: seq<Sys>, es: seq<Event>, e: Event, limit: int) returns (ss': seq<Sys>, es': seq<Event>)
    requires IsRun(ss, es, limit) && |ss| == |es| + 1 && Applies(ss[|es|], e)
    ensures |ss'| == |es'| + 1 && IsRun(ss', es', limit)
    ensures ss'[0] == ss[0] && ss'[|es'|] == Step(ss[|es|], e, limit)
  {
    hide Step, Applies;
    ss', es' := ss + [Step(ss[|es|], e, limit)], es + [e];
  }

  /** Revision 2 booted over 1 in local mode, one wait step with the timer running and one with it finished:
      if the first write of the commit is refused, 2 stays in memory and 1 in the store, on the way to a
      reboot. If it is lost and the second one done, the session goes on like that, with no update held, no
      pv_try stored, and 1 to be booted next whichever key is read. */
  lemma FailedCommitRunsAhead(i0: Inputs, i1: Inputs, i2: Inputs, i3: Inputs, limit: int) returns (ss: seq<Sys>, es: seq<Event>)
    requires i0.initOk && PassedRun(i1) && !i1.remoteMode
    requires !i2.exited && !i2.commitFin && i2.cmd.None?
    requires !i3.exited && i3.commitFin && i3.cmd.None?
    requires i3.write1.Refused? || (i3.write1.Lost? && i3.write2.Stored?)
    ensures |ss| == |es| + 1 && IsRun(ss, es, limit) && ss[0] == Off(Env(Some("1"), Some("2")))
    ensures var s := ss[|es|]; s.On? && s.v.done == "2" && s.v.state == Some("2") && s.env.rev == Some("1")
    ensures var s := ss[|es|];
      if i3.write1.Refused? then s.v.ctl == ROLLBACK && s.env == ss[0].env
      else s.v.ctl == WAIT && s.v.update.None? && s.env.tryRev.None? && forall p :: Booted(s.env, p) == "1"
  {
    var env := Env(Some("1"), Some("2"));
    ss, es := TrialBegins(env, i0, i1, limit);
    var v := TrialVol(env, "2", i0, i1);
    assert UpdateInv(v, limit) && v.ctl == WAIT && Has(v, Try) && !v.remote && v.state == Some("2");
    TrialWaits(env, v, i2, limit);
    CommitFails(env, WithStatus(v, TestingReboot), i3, limit);
    hide TrialVol, UpdateInv, IsRun, Has, Step;
    ss, es := OneMoreEvent(ss, es, Handle(i2), limit);
    ss, es := OneMoreEvent(ss, es, Handle(i3), limit);
  }

  lemma TrialWaits(env: Env, v: Vol, inp: Inputs, limit: int)
    requires v.ctl == WAIT && Has(v, Try) && !v.remote && !inp.exited && !inp.commitFin && inp.cmd.None?
    ensures Step(On(env, v), Handle(inp), limit) == On(env, WithStatus(v, TestingReboot))
  {
  }

  lemma CommitFails(env: Env, v: Vol, inp: Inputs, limit: int)
    requires v.ctl == WAIT && Has(v, TestingReboot) && !v.remote && v.state.Some? && UpdateInv(v, limit)
    requires !inp.exited && inp.commitFin && inp.cmd.None? && env.tryRev == v.state
    requires inp.write1.Refused? || (inp.write1.Lost? && inp.write2.Stored?)
    ensures var s := Step(On(env, v), Handle(inp), limit);
      && s.On? && Some(s.v.done) == v.state == s.v.state
      && if inp.write1.Refused? then s.v.ctl == ROLLBACK && s.env == env
         else s.v.ctl == WAIT && s.v.update.None? && s.env == Env(env.rev, None)
  {
    CommitWait(v, inp, limit);
    hide Handler;
    CommitPrefix(env, inp, v.state.value, 0);
  }
}
