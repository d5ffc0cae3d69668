/**
 The work one update can cost: how many times a held update runs the object download over any run,
 when it is dropped, and that a held update is never replaced by another one.
 */
module UpdateRetries {
  import opened Decimal
  import opened Wrappers
  import opened UpdateProtocol
  import opened UpdateSafety

  /** The object download runs during this event (to its end or until power is lost). */
  predicate DownloadsAt(s: Sys, e: Event, limit: int) {
    s.On? && !e.Boot? && s.v.ctl == UPDATE && Downloads(s.v, e.inp, limit)
  }

  /** How many of the events a..n-1 run the object download. */
  ghost function DownloadRuns(ss: seq<Sys>, es: seq<Event>, limit: int, a: nat, n: nat): nat
    requires |ss| == |es| + 1 && n <= |es|
    decreases n
  {
    if n <= a then 0
    else DownloadRuns(ss, es, limit, a, n - 1) + (if DownloadsAt(ss[n - 1], es[n - 1], limit) then 1 else 0)
  }

  /** An update is held in every state from a to n. */
  ghost predicate Held(ss: seq<Sys>, a: nat, n: nat)
    requires n < |ss|
  {
    forall k | a <= k <= n :: ss[k].On? && ss[k].v.update.Some?
  }

  /** A handler that keeps an update keeps the same one, and counts the download it ran. */
  predicate KeepsUpdate(v: Vol, inp: Inputs, v': Vol, limit: int)
    requires v.update.Some? && v'.update.Some?
  {
    && v'.update.value.pending == v.update.value.pending
    && v'.update.value.retries >=
         v.update.value.retries + (if v.ctl == UPDATE && Downloads(v, inp, limit) then 1 else 0)
  }

  lemma WaitUpdateKeeps(v: Vol, inp: Inputs, limit: int)
    requires v.ctl == WAIT && UpdateInv(v, limit) && v.update.Some?
    ensures var h := WaitUpdate(v, inp, limit); h.v.update.Some? ==> KeepsUpdate(v, inp, h.v, limit)
  {
    hide Finish, Test;
    TestFacts(v);
    FinishFacts(Test(v), inp, limit);
    FinishFacts(v, inp, limit);
  }

  lemma WaitKeeps(v: Vol, inp: Inputs, limit: int)
    requires v.ctl == WAIT && UpdateInv(v, limit) && v.update.Some?
    ensures var h := WaitH(v, inp, limit); h.v.update.Some? ==> KeepsUpdate(v, inp, h.v, limit)
  {
    WaitUpdateKeeps(v, inp, limit);
    hide WaitUpdate;
  }

  lemma DownloadKeeps(v: Vol, inp: Inputs, limit: int)
    requires v.ctl == UPDATE && UpdateInv(v, limit)
    ensures var d := DownloadStep(v, inp, limit); d.v.update.Some? && KeepsUpdate(v, inp, d.v, limit)
  {
  }

  lemma UpdateKeeps(v: Vol, inp: Inputs, limit: int)
    requires v.ctl == UPDATE && UpdateInv(v, limit)
    ensures var h := UpdateH(v, inp, limit); h.v.update.Some? ==> KeepsUpdate(v, inp, h.v, limit)
  {
    var d := DownloadStep(v, inp, limit);
    DownloadKeeps(v, inp, limit);
    DownloadFacts(v, inp, limit);
    var i := if d.ok then Install(d.v, inp) else d;
    if d.ok {
      InstallFacts(d.v, inp);
    }
    FinishFacts(i.v, inp, limit);
    hide DownloadStep, Install, Finish, Downloads;
  }

  /** A held update is never replaced: a handler keeps it or drops it. */
  lemma HandlerKeeps(v: Vol, inp: Inputs, limit: int)
    requires UpdateInv(v, limit) && v.update.Some?
    ensures var h := Handler(v, inp, limit); h.v.update.Some? ==> KeepsUpdate(v, inp, h.v, limit)
  {
    hide WaitH, UpdateH, Downloads;
    match v.ctl
    case WAIT => WaitKeeps(v, inp, limit);
    case UPDATE => UpdateKeeps(v, inp, limit);
    case _ =>
  }

  lemma {:induction false} RetriesCountDownloads(ss: seq<Sys>, es: seq<Event>, limit: int, a: nat, n: nat)
    requires IsRun(ss, es, limit) && a <= n <= |es| && Held(ss, a, n)
    ensures ss[n].v.update.value.retries >= ss[a].v.update.value.retries + DownloadRuns(ss, es, limit, a, n)
  {
    hide Handler, Downloads;
    if a == n {
    } else {
      RetriesCountDownloads(ss, es, limit, a, n - 1);
      InvHolds(ss, es, limit, n - 1);
      var e := es[n - 1];
      assert ss[n].On? && ss[n - 1].On? && Applies(ss[n - 1], e) && ss[n - 1 + 1] == Step(ss[n - 1], e, limit);
      HandlerKeeps(ss[n - 1].v, es[n - 1].inp, limit);
    }
  }

  /** What it takes, with the network at hand, for a wait step to take up a new update. */
  lemma AcceptedUpdate(v: Vol, inp: Inputs, limit: int)
    requires v.ctl == WAIT && UpdateInv(v, limit) && v.update.None?
    ensures var u := WaitH(v, inp, limit).v.update;
      u.Some? ==>
        && v.state.Some? && inp.offer.Offer? && inp.offer.parsed && !inp.offer.inProgress && inp.sigOk && inp.parseOk
        && Atoi(inp.offer.rev) >= Atoi(v.state.value)
        && u.value.pending == Some(inp.offer.rev) && u.value.retries == inp.offer.retries <= limit
  {
    hide Atoi;
  }

  lemma HandlerIsWait(v: Vol, inp: Inputs, limit: int)
    requires v.ctl == WAIT
    ensures Handler(v, inp, limit) == WaitH(v, inp, limit)
  {
    hide WaitH;
  }

  /** An update accepted by the wait step before a with retry count r runs the object download at most
      limit - r times while it is held, over any run. */
  lemma DownloadsAreBounded(ss: seq<Sys>, es: seq<Event>, limit: int, a: nat, n: nat)
    requires IsRun(ss, es, limit) && 0 < a <= n < |es| && Held(ss, a, n)
    requires ss[a - 1].On? && ss[a - 1].v.ctl == WAIT && ss[a - 1].v.update.None?
    ensures es[a - 1].Handle? && es[a - 1].inp.offer.Offer?
    ensures DownloadRuns(ss, es, limit, a, n + 1) <= limit - es[a - 1].inp.offer.retries
  {
    InvHolds(ss, es, limit, a - 1);
    hide Handler;
    var e := es[a - 1];
    assert ss[a].On? && Applies(ss[a - 1], e) && ss[a - 1 + 1] == Step(ss[a - 1], e, limit);
    HandlerIsWait(ss[a - 1].v, e.inp, limit);
    AcceptedUpdate(ss[a - 1].v, es[a - 1].inp, limit);
    RetriesCountDownloads(ss, es, limit, a, n);
    InvHolds(ss, es, limit, n);
    DoomedRetries(ss, es, limit, a, n);
  }

  /** The count never exceeds the limit, even on the way to a reboot. */
  lemma {:induction false} DoomedRetries(ss: seq<Sys>, es: seq<Event>, limit: int, a: nat, n: nat)
    requires IsRun(ss, es, limit) && a <= n <= |es| && Held(ss, a, n)
    requires ss[a].v.update.value.retries <= limit
    ensures DownloadRuns(ss, es, limit, a, n) <= limit - ss[a].v.update.value.retries
  {
    hide Handler;
    if a == n {
    } else {
      DoomedRetries(ss, es, limit, a, n - 1);
      RetriesCountDownloads(ss, es, limit, a, n - 1);
    }
  }

  /** Once the retries are used up, the next attempt drops the update: none is held afterwards. */
  lemma ExhaustedUpdateIsDropped(v: Vol, inp: Inputs, limit: int)
    requires v.ctl == UPDATE && UpdateInv(v, limit) && !v.update.value.local
    requires v.update.value.retries + 1 > limit && inp.remoteOk && inp.retryFin
    ensures var h := Handler(v, inp, limit);
      h.v.update.None? && h.v.ctl == WAIT && h.ws == Nil && !Downloads(v, inp, limit)
  {
    var u := v.update.value;
    assert DownloadStep(v, inp, limit) == Eff(v.(update := Some(u.(retries := u.retries + 1))), Nil, false);
    hide DownloadStep, Install;
  }
}
