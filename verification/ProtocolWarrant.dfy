/** Why a reconcile makes a call, and what it leaves alone, in every run: with
crashes, lost and ambiguous writes, stale reads and edits by others. */
module ProtocolWarrant {
  import opened Text
  import opened Meta
  import opened Policies
  import opened Protocol
  import opened ProtocolSafety
  import opened ProtocolLeak
  import opened ProtocolRound
  import opened ProtocolPlan

  // ---- a call is called for ----

  /** What a reconcile knows at the calls it makes. */
  predicate Warranted(cfg: Config, w: World) {
    var o, seen := w.local, w.seen;
    && (w.pc == Publishing(BeforeCreate) || w.pc.AddingFinalizer? ==> !o.deleted)
    && (w.pc.Stamping? || w.pc.WritingPending? || w.pc.Creating? ==>
          !o.deleted && FINALIZER in o.finalizers && !seen.present && May(cfg, o, Create))
    && (w.pc.LateInitializing? ==>
          && !o.deleted && FINALIZER in o.finalizers && (seen.present || !May(cfg, o, Create))
          && seen.late && May(cfg, o, LateInitialize))
    && (w.pc.Updating? ==>
          && !o.deleted && FINALIZER in o.finalizers && (seen.present || !May(cfg, o, Create))
          && !seen.upToDate && May(cfg, o, Update))
    && ((Cleared(w.pc) || w.pc.Initializing?) && o.deleted ==> MayDelete(cfg, o))
    && (w.pc.Deleting? ==> o.deleted && seen.present)
    && (w.pc == Unpublishing(false) || w.pc == Finalizing(false) ==> o.deleted && !seen.present)
    && (w.pc == Unpublishing(true) || w.pc == Finalizing(true) ==> o.deleted && !MayDelete(cfg, o))
    && (w.pc == Publishing(AfterUpdate) ==> w.calls == [Updates])
    && (BeforeCall(w.pc) || w.pc.Getting? ==> w.calls == [])
    // a success is only reported where there is nothing left to do
    && (w.pc.Reporting? && !w.pc.res.requeue && w.pc.res.after > 0 ==>
          w.calls == [Updates] || (w.calls == [] && !o.deleted && (seen.upToDate || !May(cfg, o, Update))))
  }

  lemma WarrantedLeaving(cfg: Config, w: World)
    requires w.pc.Idle? || w.pc == Publishing(AfterCreate) || w.pc.Recording? || w.pc.WritingCritical?
             || w.pc.RereadingCritical? || w.pc == Reporting(REQUEUE) || w.pc == Reporting(QUIET)
             || (w.pc.Getting? && w.calls == [])
    ensures Warranted(cfg, w)
  {}

  lemma WarrantedInit(cfg: Config, w: World)
    requires w.calls == [] && (w.local.deleted ==> MayDelete(cfg, w.local))
    ensures Warranted(cfg, AfterInit(cfg, w))
  {
    hide May, MayDelete, CreateIncomplete;
  }

  lemma WarrantedGet(cfg: Config, w: World)
    requires w.calls == []
    ensures Warranted(cfg, AfterGet(cfg, w))
  {
    hide May, MayDelete, IsPaused, AfterInit;
    AllowedExactly(cfg, w.local);
    if !(w.local.deleted && !MayDelete(cfg, w.local)) { WarrantedInit(cfg, w); }
  }

  lemma WarrantedGot(cfg: Config, w: World, r: Read)
    requires Warranted(cfg, w)
    ensures Warranted(cfg, OnGot(cfg, w, r))
  {
    hide May, MayDelete, AfterGet, AddAnnotations;
    if w.pc.Getting? {
      if r.Read? && r.version < |w.hist| { WarrantedGet(cfg, w.(rv := r.version, local := w.hist[r.version].obj)); }
    }
  }

  lemma WarrantedDecide(cfg: Config, w: World)
    requires Warranted(cfg, w) && w.pc.Deciding?
    ensures Warranted(cfg, Decide(cfg, w))
  {
    hide May, MayDelete, SucceededDuring;
    AllowedExactly(cfg, w.local);
  }

  lemma WarrantedProceed(cfg: Config, w: World)
    requires Warranted(cfg, w)
    ensures Warranted(cfg, OnProceed(cfg, w))
  {
    hide MayDelete, Decide;
    if w.pc.Deciding? { WarrantedDecide(cfg, w); }
  }

  lemma WarrantedMaintaining(cfg: Config, w: World)
    requires w.calls == [] && !w.local.deleted && FINALIZER in w.local.finalizers
    requires w.seen.present || !May(cfg, w.local, Create)
    ensures Warranted(cfg, AfterLateInit(cfg, w))
  {
    hide May, MayDelete;
    AllowedExactly(cfg, w.local);
  }

  lemma WarrantedHeld(cfg: Config, w: World)
    requires w.calls == [] && !w.local.deleted && FINALIZER in w.local.finalizers
    ensures Warranted(cfg, AfterFinalizer(cfg, w))
  {
    hide May, MayDelete, AfterLateInit;
    AllowedExactly(cfg, w.local);
    if w.seen.present || !May(cfg, w.local, Create) { WarrantedMaintaining(cfg, w); }
  }

  lemma WarrantedCalled(cfg: Config, w: World, o: Outcome)
    requires Warranted(cfg, w)
    ensures Warranted(cfg, OnCalled(cfg, w, o))
  {
    hide May, MayDelete, AfterFinalizer;
    if w.pc == Publishing(BeforeCreate) && o == Succeeds && FINALIZER in w.local.finalizers { WarrantedHeld(cfg, w); }
  }

  lemma WarrantedWrite(cfg: Config, w: World, o: Object, f: Fault)
    requires w.hist != []
    ensures var a := Write(w, o, f);
            && a.w.calls == w.calls && a.w.seen == w.seen && a.w.pc == w.pc
            && a.w.local == (if a.result == Landed then o else w.local)
  {
    hide Write;
    WriteKeepsExternal(w, o, f);
    WriteParts(w, o, f);
  }

  lemma WarrantedWrote(cfg: Config, w: World, f: Fault)
    requires Warranted(cfg, w) && w.hist != []
    ensures Warranted(cfg, OnWrote(cfg, w, f))
  {
    hide May, MayDelete, AfterInit, AfterFinalizer, AfterLateInit, Write;
    var l := w.local;
    match w.pc
    case Initializing => WarrantedNamed(cfg, w, f);
    case Finalizing(_) => WarrantedLeaving(cfg, OnWrote(cfg, w, f));
    case AddingFinalizer =>
      var o := l.(finalizers := l.finalizers + {FINALIZER});
      WarrantedWrite(cfg, w, o, f);
      if Write(w, o, f).result == Landed { WarrantedHeld(cfg, Write(w, o, f).w); }
    case WritingPending => WarrantedWrite(cfg, w, l, f);
    case WritingCritical(_) =>
      WarrantedWrite(cfg, w, l, f);
      WarrantedLeaving(cfg, OnWrote(cfg, w, f));
    case LateInitializing =>
      WarrantedWrite(cfg, w, l, f);
      if Write(w, l, f).result == Landed { WarrantedMaintaining(cfg, Write(w, l, f).w); }
    case _ => NothingWritten(cfg, w, f);
  }

  lemma WarrantedNamed(cfg: Config, w: World, f: Fault)
    requires Warranted(cfg, w) && w.hist != [] && w.pc.Initializing?
    ensures Warranted(cfg, OnWrote(cfg, w, f))
  {
    hide May, MayDelete, AfterInit, Write;
    var o := Named(cfg, w.local);
    Alike(cfg, w.local, o);
    WarrantedWrite(cfg, w, o, f);
    if Write(w, o, f).result == Landed { WarrantedInit(cfg, Write(w, o, f).w); }
  }

  lemma WarrantedCall(cfg: Config, w: World, e: Event)
    requires Warranted(cfg, w)
    requires e.Observed? || e.ObserveFailed? || e.Created? || e.CreateFailed? || e.Deleted? || e.Updated? || e.GaveUp?
    ensures Warranted(cfg, Next(cfg, w, e))
  {
    hide OnGot, OnWrote, OnCalled, OnProceed, OnReported, Commit, May, MayDelete;
    var v := Next(cfg, w, e);
    if e.Observed? && w.pc.Observing? { Alike(cfg, w.local, v.local); }
    else if v != w && !e.Updated? { WarrantedLeaving(cfg, v); }
  }

  lemma WarrantedAround(cfg: Config, w: World, e: Event)
    requires Warranted(cfg, w) && w.hist != []
    requires e.Tick? || e.Vanish? || e.Start? || e.Crash? || e.Edit? || e.Reported?
    ensures Warranted(cfg, Next(cfg, w, e))
  {
    hide OnGot, OnWrote, OnCalled, OnProceed, May, MayDelete, Write;
    if e.Start? || e.Crash? || e.Reported? {
      if Next(cfg, w, e) != w { WarrantedLeaving(cfg, Next(cfg, w, e)); }
    }
  }

  lemma StepWarranted(cfg: Config, w: World, e: Event)
    requires Warranted(cfg, w) && w.hist != []
    ensures Warranted(cfg, Next(cfg, w, e))
  {
    hide Warranted, OnGot, OnWrote, OnCalled, OnProceed, OnReported, Commit, OnGaveUp, OnCreated, OnCreateFailed,
      OnDeleted, OnUpdated;
    match e
    case Got(r) => WarrantedGot(cfg, w, r);
    case Called(o) => WarrantedCalled(cfg, w, o);
    case Wrote(f) => WarrantedWrote(cfg, w, f);
    case Proceed => WarrantedProceed(cfg, w);
    case Tick(_) => WarrantedAround(cfg, w, e);
    case Vanish(_) => WarrantedAround(cfg, w, e);
    case Start => WarrantedAround(cfg, w, e);
    case Crash => WarrantedAround(cfg, w, e);
    case Edit(_) => WarrantedAround(cfg, w, e);
    case Reported(_, _) => WarrantedAround(cfg, w, e);
    case _ => WarrantedCall(cfg, w, e);
  }

  lemma {:induction false} RunWarranted(cfg: Config, w: World, es: seq<Event>)
    requires Warranted(cfg, w) && RoundInv(cfg, w) && PoliteRun(cfg, w, es)
    ensures Warranted(cfg, Exec(cfg, w, es)) && RoundInv(cfg, Exec(cfg, w, es))
    decreases |es|
  {
    hide Warranted, Next, Polite, CallsOk, ReportOk, HeldOk, DeletionOk, DeletedForGood;
    if es != [] {
      StepWarranted(cfg, w, es[0]);
      StepKeepsRound(cfg, w, es[0]);
      RunWarranted(cfg, Next(cfg, w, es[0]), es[1..]);
    }
  }

  lemma InitialWarranted(cfg: Config, w: World)
    requires Initial(w)
    ensures Warranted(cfg, w)
  {}

  /** Why a call is made: what the copy allows and what was seen. */
  predicate CalledFor(cfg: Config, o: Object, seen: Observation, m: Mutation) {
    && !OnHold(cfg, o)
    && match m
       case Creates => !o.deleted && FINALIZER in o.finalizers && !seen.present && May(cfg, o, Create)
       case Updates =>
         && !o.deleted && FINALIZER in o.finalizers && (seen.present || !May(cfg, o, Create))
         && !seen.upToDate && May(cfg, o, Update)
       case Deletes => o.deleted && seen.present && MayDelete(cfg, o)
  }

  /** In every run, whatever fails, a mutating external call is one that the copy
      allows and the observation asks for. */
  lemma EveryCallIsCalledFor(cfg: Config, w: World, es: seq<Event>, e: Event)
    requires Initial(w) && PoliteRun(cfg, w, es) && Mutates(Exec(cfg, w, es), e).Some?
    ensures var u := Exec(cfg, w, es);
            u.calls == [] && CalledFor(cfg, u.local, u.seen, Mutates(u, e).value)
  {
    hide Exec, PoliteRun, May, MayDelete, OnHold;
    InitialRound(cfg, w);
    InitialWarranted(cfg, w);
    RunWarranted(cfg, w, es);
    OneGrantedCall(cfg, w, es, e);
    AllowedExactly(cfg, Exec(cfg, w, es).local);
  }

  /** A reconcile of an object that is kept has published, added the finalizer and
      stored what was late initialized, as far as there was any of that to do, and
      turns to the external resource. */
  predicate TurnsToResource(before: Pc, after: Pc) {
    && (before == Publishing(BeforeCreate) || before.AddingFinalizer? || before.LateInitializing?)
    && (after.Stamping? || after.Updating? || (after.Reporting? && !after.res.requeue))
  }

  /** What it then turns to, in every run: creating exactly what is missing and may be
      created, and of the rest updating exactly what is not up to date and may be. */
  lemma TurnsToExactly(cfg: Config, w: World, es: seq<Event>, e: Event)
    requires Initial(w) && PoliteRun(cfg, w, es)
    requires TurnsToResource(Exec(cfg, w, es).pc, Next(cfg, Exec(cfg, w, es), e).pc)
    ensures var v := Next(cfg, Exec(cfg, w, es), e);
            var o, seen := v.local, v.seen;
            && !o.deleted && FINALIZER in o.finalizers && v.calls == []
            && (v.pc.Stamping? <==> !seen.present && May(cfg, o, Create))
            && (v.pc.Updating? <==> (seen.present || !May(cfg, o, Create)) && !seen.upToDate && May(cfg, o, Update))
            && (v.pc.Reporting? ==> v.pc.res == Result(false, cfg.poll, false))
  {
    hide Exec, PoliteRun, Next, May, MayDelete, Warranted;
    InitialRound(cfg, w);
    InitialWarranted(cfg, w);
    RunWarranted(cfg, w, es);
    TurnsTo(cfg, Exec(cfg, w, es), e);
  }

  lemma TurnsTo(cfg: Config, u: World, e: Event)
    requires u.hist != [] && Warranted(cfg, u) && TurnsToResource(u.pc, Next(cfg, u, e).pc)
    ensures var v := Next(cfg, u, e);
            var o, seen := v.local, v.seen;
            && !o.deleted && FINALIZER in o.finalizers && v.calls == []
            && (v.pc.Stamping? <==> !seen.present && May(cfg, o, Create))
            && (v.pc.Updating? <==> (seen.present || !May(cfg, o, Create)) && !seen.upToDate && May(cfg, o, Update))
            && (v.pc.Reporting? ==> v.pc.res == Result(false, cfg.poll, false))
  {
    hide OnGot, OnProceed, OnReported, Commit, Write, AfterFinalizer, AfterLateInit, May, MayDelete;
    AnswerTurns(cfg, u, e);
    var l := u.local;
    var o := if u.pc.AddingFinalizer? then l.(finalizers := l.finalizers + {FINALIZER}) else l;
    if e.Wrote? {
      WarrantedWrite(cfg, u, o, e.fault);
      var a := Write(u, o, e.fault).w;
      if u.pc.AddingFinalizer? { TurnsFromHeld(cfg, a); } else { TurnsFromLateInit(cfg, a); }
    } else {
      TurnsFromHeld(cfg, u);
    }
  }

  lemma AnswerTurns(cfg: Config, u: World, e: Event)
    requires TurnsToResource(u.pc, Next(cfg, u, e).pc)
    ensures if u.pc.Publishing? then e.Called? else e.Wrote?
  {
    hide AfterGet, Decide, Record, OnReported, AfterPublish, AfterUnpublish, OnWrote;
    if e.Wrote? && u.pc.Publishing? { NothingWritten(cfg, u, e.fault); }
  }

  lemma TurnsFromLateInit(cfg: Config, w: World)
    ensures var v := AfterLateInit(cfg, w);
            && v == w.(pc := v.pc)
            && (v.pc.Updating? <==> !w.seen.upToDate && May(cfg, w.local, Update))
            && (!v.pc.Updating? ==> v.pc == Reporting(Result(false, cfg.poll, false)))
  {
    AllowedExactly(cfg, w.local);
  }

  lemma TurnsFromHeld(cfg: Config, w: World)
    ensures var v := AfterFinalizer(cfg, w);
            && v == w.(pc := v.pc)
            && (v.pc.Stamping? <==> !w.seen.present && May(cfg, w.local, Create))
            && (!v.pc.Stamping? && !v.pc.LateInitializing? ==>
                  && (v.pc.Updating? <==> !w.seen.upToDate && May(cfg, w.local, Update))
                  && (!v.pc.Updating? ==> v.pc == Reporting(Result(false, cfg.poll, false))))
  {
    hide AfterLateInit, May, MayDelete;
    AllowedExactly(cfg, w.local);
    TurnsFromLateInit(cfg, w);
  }

  /** A deleted object whose deletion policy is to orphan, and whose actions do not
      name deletion, keeps its external resource. */
  lemma OrphansAreKept(cfg: Config, w: World, es: seq<Event>, e: Event)
    requires Initial(w) && PoliteRun(cfg, w, es)
    requires var o := Exec(cfg, w, es).local;
             cfg.legacy && o.deletionPolicy == Orphan && (!cfg.enabled || Delete !in o.policies)
    ensures Mutates(Exec(cfg, w, es), e) != Some(Deletes)
  {
    hide Exec, PoliteRun, OnHold;
    if Mutates(Exec(cfg, w, es), e).Some? { EveryCallIsCalledFor(cfg, w, es, e); }
  }

  /** A reconcile that says it is content until the next poll has updated the
      resource, or found it up to date, or may not update it. */
  lemma ContentOnlyWhenDone(cfg: Config, w: World, es: seq<Event>, e: Event)
    requires Initial(w) && PoliteRun(cfg, w, es)
    requires var u := Exec(cfg, w, es);
             var v := Next(cfg, u, e);
             !u.pc.Idle? && v.pc.Idle? && !e.Crash? && !v.result.requeue && v.result.after > 0
    ensures var u := Exec(cfg, w, es);
            || u.calls == [Updates]
            || (u.calls == [] && !u.local.deleted && (u.seen.upToDate || !May(cfg, u.local, Update)))
  {
    hide Exec, PoliteRun, May, MayDelete;
    InitialRound(cfg, w);
    InitialWarranted(cfg, w);
    RunWarranted(cfg, w, es);
    ContentIsReported(cfg, Exec(cfg, w, es), e);
  }

  lemma ContentIsReported(cfg: Config, u: World, e: Event)
    requires u.hist != [] && !u.pc.Idle? && Next(cfg, u, e).pc.Idle? && !e.Crash?
    requires !Next(cfg, u, e).result.requeue && Next(cfg, u, e).result.after > 0
    ensures u.pc.Reporting? && !u.pc.res.requeue && u.pc.res.after > 0
  {
    hide AfterGet, AfterInit, AfterFinalizer, AfterLateInit, Write, Commit, OnWrote, OnGot, OnCalled;
    match e
    case Got(r) => GotIdle(cfg, u, r);
    case Wrote(f) => WroteIdle(cfg, u, f);
    case Called(o) => CalledIdle(cfg, u, o);
    case Edit(o) => CommitFacts(u, o, 0);
    case _ =>
  }

  lemma GotIdle(cfg: Config, u: World, r: Read)
    requires !u.pc.Idle? && OnGot(cfg, u, r).pc.Idle?
    ensures OnGot(cfg, u, r).result.after == 0
  {
    hide IsPaused, Policy, CreateIncomplete;
  }

  lemma CalledIdle(cfg: Config, u: World, o: Outcome)
    requires !u.pc.Idle? && OnCalled(cfg, u, o).pc.Idle?
    ensures OnCalled(cfg, u, o).result.after == 0
  {
    hide AfterFinalizer;
    AfterFinalizerIdle(cfg, u);
  }

  lemma WroteIdle(cfg: Config, u: World, f: Fault)
    requires u.hist != [] && !u.pc.Idle? && OnWrote(cfg, u, f).pc.Idle?
    ensures OnWrote(cfg, u, f).result.after == 0
  {
    hide AfterInit, AfterFinalizer, AfterLateInit, Write;
    var l := u.local;
    AfterInitIdle(cfg, Write(u, Named(cfg, l), f).w);
    AfterFinalizerIdle(cfg, Write(u, l.(finalizers := l.finalizers + {FINALIZER}), f).w);
    AfterLateInitIdle(cfg, Write(u, l, f).w);
    WarrantedWrite(cfg, u, l, f);
  }

  // ---- what a reconcile leaves alone ----

  /** The copy has the owners' fields of the version it is of, and all annotations. */
  predicate CopyOf(w: World) {
    !w.pc.Idle? && !w.pc.Getting? ==>
      && w.rv < |w.hist|
      && var o := w.hist[w.rv].obj;
         && w.local.deleted == o.deleted && w.local.policies == o.policies && w.local.deletionPolicy == o.deletionPolicy
         && w.local.finalizers == o.finalizers
         && forall k :: k in o.notes.others ==> k in w.local.notes.others
  }

  /** Nothing changes but our marks, our finalizer, spec, status and the values of
      annotations. */
  predicate Modest(o: Object, q: Object) {
    && q.deleted == o.deleted && q.policies == o.policies && q.deletionPolicy == o.deletionPolicy
    && q.finalizers - {FINALIZER} == o.finalizers - {FINALIZER}
    && (forall k :: k in o.notes.others ==> k in q.notes.others)
  }

  lemma ModestWrite(w: World, o: Object, f: Fault)
    requires w.hist != [] && CopyOf(w) && !w.pc.Idle? && !w.pc.Getting? && Modest(w.local, o)
    ensures var a := Write(w, o, f);
            && a.w.hist != [] && (a.w.hist == w.hist || Modest(Current(w), Current(a.w))) && CopyOf(a.w)
            && a.w.pc == w.pc
  {}

  /** A step after which the copy is of the same version, but for what is ours. */
  lemma CopySame(w: World, v: World)
    requires CopyOf(w) && v.hist == w.hist && (v.pc.Idle? || v.pc.Getting? || (!w.pc.Idle? && !w.pc.Getting?))
    requires v.rv == w.rv
    requires v.local == w.local.(notes := v.local.notes, spec := v.local.spec)
    requires v.local.notes.others == w.local.notes.others
    ensures CopyOf(v)
  {}

  lemma SentIsModest(cfg: Config, w: World)
    ensures Modest(w.local, Sent(cfg, w))
  {}

  lemma ModestWrote(cfg: Config, w: World, f: Fault)
    requires w.hist != [] && CopyOf(w)
    ensures var v := OnWrote(cfg, w, f);
            v.hist != [] && (v.hist == w.hist || Modest(Current(w), Current(v))) && CopyOf(v)
  {
    hide Write, Modest, OnWrote, CopyOf, Sent;
    var v := OnWrote(cfg, w, f);
    WroteIsWrite(cfg, w, f);
    SentIsModest(cfg, w);
    if v != w {
      ModestWrite(w, Sent(cfg, w), f);
      CopySame(Write(w, Sent(cfg, w), f).w, v);
    }
  }

  lemma ModestGot(cfg: Config, w: World, r: Read)
    requires w.hist != [] && CopyOf(w)
    ensures OnGot(cfg, w, r).hist == w.hist && CopyOf(OnGot(cfg, w, r))
  {
    hide AfterGet;
    if w.pc.Getting? && r.Read? && r.version < |w.hist| {
      GetKeepsCopy(cfg, w.(rv := r.version, local := w.hist[r.version].obj));
    }
  }

  lemma GetKeepsCopy(cfg: Config, w: World)
    ensures var v := AfterGet(cfg, w); v == w.(pc := v.pc, checked := v.checked)
  {
    hide Policy, IsPaused, CreateIncomplete;
  }

  lemma ModestCalled(cfg: Config, w: World, o: Outcome)
    requires w.hist != [] && CopyOf(w)
    ensures OnCalled(cfg, w, o).hist == w.hist && CopyOf(OnCalled(cfg, w, o))
  {
    hide Policy, CopyOf;
    CopySame(w, OnCalled(cfg, w, o));
  }

  lemma ModestOther(cfg: Config, w: World, e: Event)
    requires w.hist != [] && CopyOf(w) && !e.Wrote? && !e.Edit? && !e.Reported? && !e.Got? && !e.Called?
    ensures Next(cfg, w, e).hist == w.hist && CopyOf(Next(cfg, w, e))
  {
    hide OnWrote, OnReported, Commit, Policy, SucceededDuring, OnGot, OnCalled, CopyOf;
    CopySame(w, Next(cfg, w, e));
  }

  lemma ModestReported(w: World, f: Fault, status: int)
    requires w.hist != [] && w.pc.Reporting?
    ensures var v := OnReported(w, w.pc.res, f, status);
            v.hist != [] && (v.hist == w.hist || Current(v) == Current(w).(status := status)) && v.pc.Idle?
  {}

  lemma ModestEdit(w: World, o: Object)
    requires w.hist != [] && CopyOf(w)
    ensures Commit(w, o, 0).hist != [] && CopyOf(Commit(w, o, 0))
  {}

  lemma StepIsModest(cfg: Config, w: World, e: Event)
    requires w.hist != [] && CopyOf(w)
    ensures var v := Next(cfg, w, e);
            v.hist != [] && CopyOf(v) && (e.Edit? || v.hist == w.hist || Modest(Current(w), Current(v)))
  {
    hide OnWrote, OnReported, Commit, CopyOf, OnGot, OnCalled, OnProceed;
    match e
    case Wrote(f) => ModestWrote(cfg, w, f);
    case Got(r) => ModestGot(cfg, w, r);
    case Called(o) => ModestCalled(cfg, w, o);
    case Edit(o) => ModestEdit(w, o);
    case Reported(f, status) => if w.pc.Reporting? { ModestReported(w, f, status); IdleIsCopy(Next(cfg, w, e)); }
    case _ => ModestOther(cfg, w, e);
  }

  lemma IdleIsCopy(w: World)
    requires w.pc.Idle?
    ensures CopyOf(w)
  {}

  lemma {:induction false} RunCopies(cfg: Config, w: World, es: seq<Event>)
    requires w.hist != [] && CopyOf(w)
    ensures Exec(cfg, w, es).hist != [] && CopyOf(Exec(cfg, w, es))
    decreases |es|
  {
    hide Next, CopyOf;
    if es != [] {
      StepIsModest(cfg, w, es[0]);
      RunCopies(cfg, Next(cfg, w, es[0]), es[1..]);
    }
  }

  /** In every run, whatever others do, what a reconcile stores over the current
      version leaves policies, deletion and the finalizers of others as they are,
      and loses no annotation. */
  lemma ReconcilesAreModest(cfg: Config, w: World, es: seq<Event>, e: Event)
    requires Initial(w) && !e.Edit?
    ensures var u := Exec(cfg, w, es);
            var v := Next(cfg, u, e);
            u.hist != [] && v.hist != [] && (v.hist == u.hist || Modest(Current(u), Current(v)))
  {
    hide Exec, Next, Modest;
    RunCopies(cfg, w, es);
    StepIsModest(cfg, Exec(cfg, w, es), e);
  }

  // ---- how reconciles end ----

  /** The call in progress meets a version other than the one the copy is of. */
  predicate MeetsConflict(w: World, e: Event) {
    || e == Called(Conflicts) || e == ObserveFailed(true) || e == GaveUp(true)
    || ((e.Wrote? || e.Reported?) && e.fault != Lost && !w.gone && w.rv + 1 != |w.hist|)
  }

  /** It fails for another reason: the call does, or it is lost, or takes effect and
      says it failed, or there is no object to write to. */
  predicate MeetsError(w: World, e: Event) {
    || e == Called(Fails) || e == ObserveFailed(false) || e == GaveUp(false) || e == Updated(false)
    || e == Got(ReadError)
    || ((e.Wrote? || e.Reported?) && (e.fault == Lost || w.gone || (e.fault == Ambiguous && w.rv + 1 == |w.hist|)))
  }

  /** The event answers the call in progress, or ends an attempt to record. */
  predicate Answered(pc: Pc, e: Event) {
    match pc
    case Getting => e.Got?
    case Unpublishing(_) => e.Called?
    case Resolving => e.Called?
    case Connecting => e.Called?
    case Publishing(_) => e.Called?
    case Observing => e.ObserveFailed? || e.Observed?
    case Updating => e.Updated?
    case Reporting(_) => e.Reported?
    case WritingCritical(_) => e.Wrote? || e.GaveUp?
    case RereadingCritical(_) => e.GaveUp?
    case Initializing => e.Wrote?
    case Finalizing(_) => e.Wrote?
    case AddingFinalizer => e.Wrote?
    case WritingPending => e.Wrote?
    case LateInitializing => e.Wrote?
    case _ => false
  }

  /** A conflict there is reported like any other failure: late initialization, what
      an update returned, and recording that a creation failed. */
  predicate TellsConflicts(pc: Pc) {
    || pc.LateInitializing? || pc == Publishing(AfterUpdate)
    || pc == WritingCritical(false) || pc == RereadingCritical(false)
  }

  /** Where the reconcile is then, and what the last one returned. */
  datatype Aftermath = Aftermath(pc: Pc, result: Result)

  /** What comes of a failure. A conflict is no more than a reason to run again,
      without a word; any other failure is put into the status first. Recording an
      outcome goes on until it is given up. A read that fails is returned as an error,
      and so is a failure to put anything into the status. */
  function AfterFailure(w: World, e: Event): Aftermath {
    if w.pc.Getting? then Aftermath(Idle, Result(false, 0, true))
    else if w.pc.Reporting? then
      Aftermath(Idle, if MeetsConflict(w, e) then Result(true, 0, false) else w.pc.res.(err := true))
    else if w.pc.WritingCritical? && e.Wrote? then
      Aftermath(if MeetsConflict(w, e) then RereadingCritical(w.pc.success) else w.pc, w.result)
    else if w.pc.Finalizing? && w.gone && e.Wrote? && e.fault != Lost then Aftermath(Idle, Result(false, 0, false))
    else if MeetsConflict(w, e) && !TellsConflicts(w.pc) then Aftermath(Idle, Result(true, 0, false))
    else Aftermath(Reporting(Result(true, 0, false)), w.result)
  }

  lemma FailuresExactly(cfg: Config, w: World, e: Event)
    requires w.hist != [] && Answered(w.pc, e) && (MeetsConflict(w, e) || MeetsError(w, e))
    ensures var v := Next(cfg, w, e);
            Aftermath(v.pc, v.result) == AfterFailure(w, e)
  {
    hide AfterGet, AfterPublish, AfterUnpublish, AfterInit, AfterFinalizer, AfterLateInit, OnWrote, OnReported;
    if e.Wrote? { FailedWrite(cfg, w, e); }
    else if e.Reported? { FailedReport(cfg, w, e); }
  }

  lemma FailedWrite(cfg: Config, w: World, e: Event)
    requires w.hist != [] && e.Wrote? && Answered(w.pc, e) && (MeetsConflict(w, e) || MeetsError(w, e))
    ensures var v := OnWrote(cfg, w, e.fault);
            Aftermath(v.pc, v.result) == AfterFailure(w, e)
  {
    hide AfterInit, AfterFinalizer, AfterLateInit, Write;
    WriteResultIs(w, Sent(cfg, w), e.fault);
    WriteKeepsExternal(w, Sent(cfg, w), e.fault);
  }

  lemma FailedReport(cfg: Config, w: World, e: Event)
    requires w.hist != [] && w.pc.Reporting? && e.Reported? && (MeetsConflict(w, e) || MeetsError(w, e))
    ensures var v := OnReported(w, w.pc.res, e.fault, e.status);
            Aftermath(v.pc, v.result) == AfterFailure(w, e)
  {
    hide Commit;
  }

  /** Why a reconcile ends without another word: a conflict, a read that finds nothing
      or fails, an object that is let go, or a resource that may yet show up. */
  predicate EndsQuietly(cfg: Config, w: World, e: Event) {
    || (Answered(w.pc, e) && MeetsConflict(w, e) && !TellsConflicts(w.pc) && !(w.pc.WritingCritical? && e.Wrote?))
    || (w.pc.Getting? && (e == Got(ReadMissing) || e == Got(ReadError)))
    || (w.pc.Finalizing? && e.Wrote? && e.fault != Lost && (w.gone || (e.fault == NoFault && w.rv + 1 == |w.hist|)))
    || (w.pc.Unpublishing? && e == Called(Succeeds) && FINALIZER !in w.local.finalizers)
    || (w.pc.Deciding? && e.Proceed? && !w.seen.present && !MayOnlyObserve(cfg, w.local)
        && Recent(w.local.notes, w.now, cfg.grace))
  }

  /** A reconcile is over exactly if the process crashes, its status is updated, or it
      ends quietly: no other failure goes unreported. */
  lemma EndsExactly(cfg: Config, w: World, e: Event)
    requires w.hist != [] && !w.pc.Idle?
    ensures Next(cfg, w, e).pc.Idle? <==> e.Crash? || (w.pc.Reporting? && e.Reported?) || EndsQuietly(cfg, w, e)
  {
    hide AfterGet, AfterInit, AfterFinalizer, AfterLateInit, OnWrote, Commit, OnCalled, OnGot, Decide,
      MayOnlyObserve, Recent, Answered, TellsConflicts;
    match e
    case Got(r) => GotEnds(cfg, w, r);
    case Wrote(f) => WroteEnds(cfg, w, f);
    case Called(o) => CalledEnds(cfg, w, o);
    case Edit(o) => EditEnds(cfg, w, o);
    case Proceed => ProceedEnds(cfg, w);
    case Reported(_, _) => ReportedEnds(cfg, w, e);
    case _ => OtherEnds(cfg, w, e);
  }

  lemma GotEnds(cfg: Config, w: World, r: Read)
    requires !w.pc.Idle?
    ensures OnGot(cfg, w, r).pc.Idle? <==> EndsQuietly(cfg, w, Got(r))
  {
    hide IsPaused, Policy, CreateIncomplete;
  }

  lemma CalledEnds(cfg: Config, w: World, o: Outcome)
    requires !w.pc.Idle?
    ensures OnCalled(cfg, w, o).pc.Idle? <==> EndsQuietly(cfg, w, Called(o))
  {
    hide AfterFinalizer;
    AfterFinalizerIdle(cfg, w);
  }

  lemma ProceedEnds(cfg: Config, w: World)
    requires !w.pc.Idle?
    ensures OnProceed(cfg, w).pc.Idle? <==> EndsQuietly(cfg, w, Proceed)
  {
    hide Policy, SucceededDuring, Recent, MayOnlyObserve;
    AllowedExactly(cfg, w.local);
    NotesExactly(w.local.notes, w.now, cfg.grace);
  }

  lemma ReportedEnds(cfg: Config, w: World, e: Event)
    requires e.Reported? && w.hist != []
    ensures if w.pc.Reporting? then OnReported(w, w.pc.res, e.fault, e.status).pc.Idle? else !EndsQuietly(cfg, w, e)
  {}

  lemma EditEnds(cfg: Config, w: World, o: Object)
    ensures Commit(w, o, 0).pc == w.pc && !EndsQuietly(cfg, w, Edit(o))
  {}

  lemma WroteEnds(cfg: Config, w: World, f: Fault)
    requires w.hist != [] && !w.pc.Idle?
    ensures OnWrote(cfg, w, f).pc.Idle? <==> EndsQuietly(cfg, w, Wrote(f))
  {
    hide AfterInit, AfterFinalizer, AfterLateInit, Write;
    WriteResultIs(w, Sent(cfg, w), f);
    WriteKeepsExternal(w, Sent(cfg, w), f);
    var a := Write(w, Sent(cfg, w), f).w;
    AfterInitIdle(cfg, a);
    AfterFinalizerIdle(cfg, a);
    AfterLateInitIdle(cfg, a);
  }

  lemma WriteResultIs(w: World, o: Object, f: Fault)
    requires w.hist != []
    ensures var r := Write(w, o, f).result;
            && (r == Errored <==> f == Lost || (f == Ambiguous && !w.gone && w.rv + 1 == |w.hist|))
            && (r == Missing <==> f != Lost && w.gone)
            && (r == Conflicted <==> f != Lost && !w.gone && w.rv + 1 != |w.hist|)
            && Write(w, o, f).w.result == w.result
  {}

  lemma OtherEnds(cfg: Config, w: World, e: Event)
    requires !w.pc.Idle?
    requires !(e.Got? || e.Wrote? || e.Called? || e.Edit? || e.Proceed? || e.Reported?)
    ensures Next(cfg, w, e).pc.Idle? <==> e.Crash? || EndsQuietly(cfg, w, e)
  {
    hide OnGot, OnWrote, OnCalled, OnProceed, OnReported, Commit, MayOnlyObserve, Recent;
  }
}
