/** One reconcile, whatever the environment does: it makes at most one mutating
external call, one its policy grants, and it stops asking to be run again only
when there is nothing left to do. */
module ProtocolRound {
  import opened Text
  import opened Meta
  import opened Protocol
  import opened ProtocolSafety
  import opened ProtocolLeak

  predicate PoliteRun(cfg: Config, w: World, es: seq<Event>)
    decreases |es|
  {
    es != [] ==> Polite(w, es[0]) && PoliteRun(cfg, Next(cfg, w, es[0]), es[1..])
  }

  // ---- the claims ----

  /** Not paused, by annotation or by policy, and with a valid policy. */
  predicate Active(cfg: Config, o: Object) {
    !IsPaused(o.notes) && !Policy(cfg, o).Paused() && Policy(cfg, o).Valid()
  }

  predicate Grants(cfg: Config, o: Object, m: Mutation) {
    match m
    case Creates => Policy(cfg, o).ShouldCreate()
    case Updates => Policy(cfg, o).ShouldUpdate()
    case Deletes => Policy(cfg, o).ShouldDelete()
  }

  /** Neither a requeue, nor a delay, nor an error. */
  predicate Quiet(r: Result) {
    !r.requeue && r.after == 0 && !r.err
  }

  /** The object is gone or does not carry our finalizer. */
  predicate Finalized(w: World) {
    w.gone || (w.hist != [] && FINALIZER !in Current(w).finalizers)
  }

  /** The reasons there are for ending quietly. */
  predicate NothingToDo(cfg: Config, w: World, e: Event, v: World) {
    || e == Got(ReadMissing)
    || !Active(cfg, w.local)
    || (CreateIncomplete(w.local.notes) && !cfg.deterministic)
    || Finalized(v)
  }

  // ---- the invariant ----

  /** Between reading the object and calling the external system. */
  predicate BeforeCall(pc: Pc) {
    Holding(pc) || pc.WritingPending? || pc.Creating?
  }

  predicate CallsOk(cfg: Config, w: World) {
    && (BeforeCall(w.pc) || w.pc.Getting? ==> w.calls == [])
    && (BeforeCall(w.pc) ==> Active(cfg, w.local))
    && (w.pc.Stamping? || w.pc.WritingPending? || w.pc.Creating? ==> Grants(cfg, w.local, Creates))
    && (w.pc.Updating? ==> Grants(cfg, w.local, Updates))
    && (w.pc.Deleting? ==> Grants(cfg, w.local, Deletes))
  }

  predicate ReportOk(cfg: Config, w: World) {
    w.pc.Reporting? ==>
      && !w.pc.res.err
      && (cfg.poll > 0 && Quiet(w.pc.res) ==> !Active(cfg, w.local) || (CreateIncomplete(w.local.notes) && !cfg.deterministic))
  }

  /** The copy has the finalizers and the deletion mark of the version it is of. */
  predicate HeldOk(w: World) {
    !w.pc.Idle? && !w.pc.Getting? ==>
      && w.rv < |w.hist|
      && w.local.deleted == w.hist[w.rv].obj.deleted
      && w.local.finalizers == w.hist[w.rv].obj.finalizers
  }

  predicate DeletionOk(w: World) {
    && (w.pc == Publishing(BeforeCreate) || w.pc.AddingFinalizer? ==> !w.local.deleted)
    && (w.pc.Unpublishing? || w.pc.Finalizing? ==> w.local.deleted)
  }

  /** A deletion is final, and our finalizer does not come back after it. */
  predicate DeletedForGood(w: World) {
    forall i, j :: 0 <= i < j < |w.hist| && w.hist[i].obj.deleted ==>
      w.hist[j].obj.deleted && (FINALIZER in w.hist[j].obj.finalizers ==> FINALIZER in w.hist[i].obj.finalizers)
  }

  predicate RoundInv(cfg: Config, w: World) {
    w.hist != [] && CallsOk(cfg, w) && ReportOk(cfg, w) && HeldOk(w) && DeletionOk(w) && DeletedForGood(w)
  }

  // ---- storing ----

  lemma CommitForGood(w: World, o: Object, writer: nat)
    requires w.hist != [] && DeletedForGood(w)
    requires Current(w).deleted ==> o.deleted && (FINALIZER in o.finalizers ==> FINALIZER in Current(w).finalizers)
    ensures DeletedForGood(Commit(w, o, writer))
  {
    var c := Commit(w, o, writer);
    assert forall i :: 0 <= i < |w.hist| ==> c.hist[i] == w.hist[i];
  }

  /** What a write does to the parts the invariant is about. */
  lemma WriteRound(w: World, o: Object, f: Fault)
    requires w.hist != [] && DeletedForGood(w) && HeldOk(w) && !w.pc.Idle? && !w.pc.Getting?
    requires o.deleted == w.local.deleted
    requires w.local.deleted && FINALIZER in o.finalizers ==> FINALIZER in w.local.finalizers
    ensures var a := Write(w, o, f);
            && a.w.hist != [] && DeletedForGood(a.w) && HeldOk(a.w)
            && a.w.calls == w.calls && a.w.seen == w.seen && a.w.pc == w.pc
            && a.w.local == (if a.result == Landed then o else w.local)
            && (a.result == Landed ==> Current(a.w) == o)
            && (a.result == Missing ==> a.w.gone)
  {
    hide DeletedForGood, Commit;
    WriteEffect(w, o, f);
    CommitFacts(w, o, w.round);
    if w.rv + 1 == |w.hist| { CommitForGood(w, o, w.round); }
    WriteKeepsExternal(w, o, f);
    WriteParts(w, o, f);
    var a := Write(w, o, f);
    if a.w.hist == w.hist { SameForGood(w, a.w); } else { SameForGood(Commit(w, o, w.round), a.w); }
  }

  lemma SameForGood(w: World, v: World)
    requires DeletedForGood(w) && v.hist == w.hist
    ensures DeletedForGood(v)
  {}

  lemma WriteParts(w: World, o: Object, f: Fault)
    requires w.hist != []
    ensures var a := Write(w, o, f);
            && a.w.local == (if a.result == Landed then o else w.local)
            && (a.result == Missing ==> a.w.gone)
            && (a.result != Landed ==> a.w.rv == w.rv)
            && (a.w.hist == w.hist || (w.rv + 1 == |w.hist| && a.w.hist == Commit(w, o, w.round).hist))
  {}

  // ---- steps ----

  lemma LeavingOk(cfg: Config, v: World)
    requires v.pc.Idle? || v.pc == Publishing(AfterCreate) || v.pc == Publishing(AfterUpdate)
             || (v.pc.Reporting? && !v.pc.res.err && (cfg.poll > 0 ==> !Quiet(v.pc.res)))
             || v.pc.Recording? || v.pc.WritingCritical? || v.pc.RereadingCritical?
    ensures CallsOk(cfg, v) && ReportOk(cfg, v) && DeletionOk(v)
  {}

  lemma RoundAfterInit(cfg: Config, w: World)
    requires w.hist != [] && w.calls == [] && Active(cfg, w.local) && DeletedForGood(w)
    requires w.rv < |w.hist| && w.local.deleted == w.hist[w.rv].obj.deleted && w.local.finalizers == w.hist[w.rv].obj.finalizers
    ensures RoundInv(cfg, AfterInit(cfg, w))
  {
    hide DeletedForGood, Active;
    SameForGood(w, AfterInit(cfg, w));
  }

  lemma RoundGet(cfg: Config, w: World, i: nat)
    requires RoundInv(cfg, w) && w.pc.Getting? && i < |w.hist|
    ensures RoundInv(cfg, AfterGet(cfg, w.(rv := i, local := w.hist[i].obj)))
  {
    hide DeletedForGood, AfterInit;
    var u := w.(rv := i, local := w.hist[i].obj);
    SameForGood(w, u);
    var v := AfterGet(cfg, u);
    if Active(cfg, u.local) && v == AfterInit(cfg, u) { RoundAfterInit(cfg, u); } else { SameForGood(u, v); }
  }

  lemma RoundDecide(cfg: Config, w: World)
    requires RoundInv(cfg, w) && w.pc.Deciding?
    ensures RoundInv(cfg, Decide(cfg, w))
  {
    hide DeletedForGood, SucceededDuring, IsPaused;
    SameForGood(w, Decide(cfg, w));
  }

  lemma RoundAfterLateInit(cfg: Config, w: World)
    requires w.hist != [] && w.calls == [] && Active(cfg, w.local) && DeletedForGood(w)
    requires w.rv < |w.hist| && w.local.deleted == w.hist[w.rv].obj.deleted && w.local.finalizers == w.hist[w.rv].obj.finalizers
    ensures RoundInv(cfg, AfterLateInit(cfg, w))
  {
    hide DeletedForGood, Active;
    SameForGood(w, AfterLateInit(cfg, w));
  }

  lemma RoundAfterFinalizer(cfg: Config, w: World)
    requires w.hist != [] && w.calls == [] && Active(cfg, w.local) && DeletedForGood(w)
    requires w.rv < |w.hist| && w.local.deleted == w.hist[w.rv].obj.deleted && w.local.finalizers == w.hist[w.rv].obj.finalizers
    ensures RoundInv(cfg, AfterFinalizer(cfg, w))
  {
    hide DeletedForGood, Active, AfterLateInit;
    RoundAfterLateInit(cfg, w);
    var v := AfterFinalizer(cfg, w);
    if v != AfterLateInit(cfg, w) { SameForGood(w, v); }
  }

  lemma RoundCalled(cfg: Config, w: World, o: Outcome)
    requires RoundInv(cfg, w)
    ensures RoundInv(cfg, OnCalled(cfg, w, o))
  {
    hide DeletedForGood, Active, AfterFinalizer;
    var v := OnCalled(cfg, w, o);
    if w.pc == Publishing(BeforeCreate) && o == Succeeds && FINALIZER in w.local.finalizers {
      RoundAfterFinalizer(cfg, w);
    } else {
      SameForGood(w, v);
    }
  }

  lemma RoundFailure(cfg: Config, w: World, conflict: bool)
    requires w.hist != [] && DeletedForGood(w) && HeldOk(w) && !w.pc.Idle? && !w.pc.Getting?
    ensures RoundInv(cfg, OnFailure(w, conflict))
  {
    hide DeletedForGood;
    LeavingOk(cfg, OnFailure(w, conflict));
    SameForGood(w, OnFailure(w, conflict));
  }

  lemma RoundLeave(cfg: Config, w: World, v: World)
    requires w.hist != [] && DeletedForGood(w) && HeldOk(w) && !w.pc.Idle? && !w.pc.Getting?
    requires v.hist == w.hist && v.rv == w.rv && v.local == w.local
    requires v.pc.Idle? || v.pc == Publishing(AfterCreate) || v.pc.RereadingCritical? || v.pc.WritingCritical? || v.pc == Reporting(REQUEUE)
    ensures RoundInv(cfg, v)
  {
    hide DeletedForGood;
    LeavingOk(cfg, v);
    SameForGood(w, v);
  }

  lemma RoundWrote(cfg: Config, w: World, f: Fault)
    requires RoundInv(cfg, w)
    ensures RoundInv(cfg, OnWrote(cfg, w, f))
  {
    hide DeletedForGood, Write, Commit, AfterInit, AfterFinalizer, AfterLateInit, CallsOk, ReportOk;
    var l, v := w.local, OnWrote(cfg, w, f);
    match w.pc
    case Initializing => RoundInitialize(cfg, w, f);
    case Finalizing(_) =>
      var o := l.(finalizers := l.finalizers - {FINALIZER});
      WriteRound(w, o, f);
      RoundLeave(cfg, Write(w, o, f).w, v);
    case AddingFinalizer => RoundAddFinalizer(cfg, w, f);
    case WritingPending => RoundPending(cfg, w, f);
    case WritingCritical(_) =>
      WriteRound(w, l, f);
      RoundLeave(cfg, Write(w, l, f).w, v);
    case LateInitializing => RoundLateInit(cfg, w, f);
    case _ => NothingWritten(cfg, w, f);
  }

  lemma RoundInitialize(cfg: Config, w: World, f: Fault)
    requires RoundInv(cfg, w) && w.pc.Initializing?
    ensures RoundInv(cfg, OnWrote(cfg, w, f))
  {
    hide DeletedForGood, Write, Commit, AfterInit;
    var o := Named(cfg, w.local);
    var a := Write(w, o, f);
    WriteRound(w, o, f);
    if a.result == Landed { RoundAfterInit(cfg, a.w); } else { RoundFailure(cfg, a.w, a.result == Conflicted); }
  }

  lemma RoundAddFinalizer(cfg: Config, w: World, f: Fault)
    requires RoundInv(cfg, w) && w.pc.AddingFinalizer?
    ensures RoundInv(cfg, OnWrote(cfg, w, f))
  {
    hide DeletedForGood, Write, Commit, AfterFinalizer;
    var o := w.local.(finalizers := w.local.finalizers + {FINALIZER});
    var a := Write(w, o, f);
    WriteRound(w, o, f);
    if a.result == Landed { RoundAfterFinalizer(cfg, a.w); } else { RoundFailure(cfg, a.w, a.result == Conflicted); }
  }

  lemma RoundPending(cfg: Config, w: World, f: Fault)
    requires RoundInv(cfg, w) && w.pc.WritingPending?
    ensures RoundInv(cfg, OnWrote(cfg, w, f))
  {
    hide DeletedForGood, Write, Commit, Active;
    var a := Write(w, w.local, f);
    WriteRound(w, w.local, f);
    if a.result == Landed { SameForGood(a.w, Goto(a.w, Creating)); } else { RoundFailure(cfg, a.w, a.result == Conflicted); }
  }

  lemma RoundLateInit(cfg: Config, w: World, f: Fault)
    requires RoundInv(cfg, w) && w.pc.LateInitializing?
    ensures RoundInv(cfg, OnWrote(cfg, w, f))
  {
    hide DeletedForGood, Write, Commit, AfterLateInit;
    var a := Write(w, w.local, f);
    WriteRound(w, w.local, f);
    if a.result == Landed { RoundAfterLateInit(cfg, a.w); } else { RoundLeave(cfg, a.w, Report(a.w, REQUEUE)); }
  }

  lemma RoundReported(cfg: Config, w: World, f: Fault, status: int)
    requires RoundInv(cfg, w) && w.pc.Reporting?
    ensures RoundInv(cfg, OnReported(w, w.pc.res, f, status))
  {
    hide DeletedForGood, Write, Commit;
    var o := Current(w).(status := status);
    var v := OnReported(w, w.pc.res, f, status);
    var a := Write(w, o, f);
    WriteParts(w, o, f);
    CommitForGood(w, o, w.round);
    CommitFacts(w, o, w.round);
    if a.w.hist == w.hist { SameForGood(w, v); } else { SameForGood(Commit(w, o, w.round), v); }
  }

  lemma RoundGot(cfg: Config, w: World, r: Read)
    requires RoundInv(cfg, w)
    ensures RoundInv(cfg, OnGot(cfg, w, r))
  {
    hide DeletedForGood, AfterGet, AddAnnotations, Active;
    var v := OnGot(cfg, w, r);
    if w.pc.Getting? && r.Read? && r.version < |w.hist| {
      RoundGet(cfg, w, r.version);
    } else {
      SameForGood(w, v);
    }
  }

  lemma RoundEdit(cfg: Config, w: World, o: Object)
    requires RoundInv(cfg, w) && Polite(w, Edit(o))
    ensures RoundInv(cfg, Commit(w, o, 0))
  {
    hide DeletedForGood, Commit, Active;
    CommitForGood(w, o, 0);
    CommitFacts(w, o, 0);
    CommitCalls(w, o, 0);
  }

  lemma CommitCalls(w: World, o: Object, writer: nat)
    ensures Commit(w, o, writer).calls == w.calls
  {}

  lemma RoundCall(cfg: Config, w: World, e: Event)
    requires RoundInv(cfg, w)
    requires e.ObserveFailed? || e.Created? || e.CreateFailed? || e.Deleted? || e.Updated? || e.GaveUp?
    ensures RoundInv(cfg, Next(cfg, w, e))
  {
    hide DeletedForGood, OnGot, OnWrote, OnCalled, OnProceed, OnReported, Commit, Active, Policy;
    var v := Next(cfg, w, e);
    SameForGood(w, v);
    if v != w { LeavingOk(cfg, v); }
  }

  lemma RoundObserved(cfg: Config, w: World, e: Event)
    requires RoundInv(cfg, w) && e.Observed?
    ensures RoundInv(cfg, Next(cfg, w, e))
  {
    hide DeletedForGood, OnGot, OnWrote, OnCalled, OnProceed, OnReported, Commit, Active, Policy;
    SameForGood(w, Next(cfg, w, e));
    ActiveSame(cfg, w.local, e.spec);
  }

  lemma RoundEnv(cfg: Config, w: World, e: Event)
    requires RoundInv(cfg, w) && (e.Tick? || e.Vanish? || e.Start? || e.Crash?)
    ensures RoundInv(cfg, Next(cfg, w, e))
  {
    hide DeletedForGood, OnGot, OnWrote, OnCalled, OnProceed, OnReported, Commit, Active, Quiet;
    SameForGood(w, Next(cfg, w, e));
  }

  lemma ActiveSame(cfg: Config, o: Object, spec: int)
    ensures Active(cfg, o.(spec := spec)) == Active(cfg, o)
  {}

  lemma RoundProceed(cfg: Config, w: World)
    requires RoundInv(cfg, w)
    ensures RoundInv(cfg, OnProceed(cfg, w))
  {
    hide DeletedForGood, Decide;
    if w.pc.Deciding? { RoundDecide(cfg, w); } else { SameForGood(w, OnProceed(cfg, w)); }
  }

  lemma StepKeepsRound(cfg: Config, w: World, e: Event)
    requires RoundInv(cfg, w) && Polite(w, e)
    ensures RoundInv(cfg, Next(cfg, w, e))
  {
    hide RoundInv, OnGot, OnWrote, OnCalled, OnProceed, OnReported, Commit, OnGaveUp, OnCreated, OnCreateFailed,
      OnDeleted, OnUpdated;
    match e
    case Got(r) => RoundGot(cfg, w, r);
    case Called(o) => RoundCalled(cfg, w, o);
    case Edit(o) => RoundEdit(cfg, w, o);
    case Wrote(f) => RoundWrote(cfg, w, f);
    case Reported(f, status) => if w.pc.Reporting? { RoundReported(cfg, w, f, status); }
    case Proceed => RoundProceed(cfg, w);
    case Tick(_) => RoundEnv(cfg, w, e);
    case Vanish(_) => RoundEnv(cfg, w, e);
    case Start => RoundEnv(cfg, w, e);
    case Crash => RoundEnv(cfg, w, e);
    case Observed(_, _) => RoundObserved(cfg, w, e);
    case _ => RoundCall(cfg, w, e);
  }

  lemma {:induction false} RunKeepsRound(cfg: Config, w: World, es: seq<Event>)
    requires RoundInv(cfg, w) && PoliteRun(cfg, w, es)
    ensures RoundInv(cfg, Exec(cfg, w, es))
    decreases |es|
  {
    hide RoundInv, Next, Polite;
    if es != [] {
      StepKeepsRound(cfg, w, es[0]);
      RunKeepsRound(cfg, Next(cfg, w, es[0]), es[1..]);
    }
  }

  lemma InitialRound(cfg: Config, w: World)
    requires Initial(w)
    ensures RoundInv(cfg, w)
  {}

  // ---- what follows for every run ----

  /** The mutating call an event stands for, if it answers one. */
  function Mutates(w: World, e: Event): Option<Mutation> {
    if w.pc.Creating? && (e.Created? || e.CreateFailed?) then Some(Creates)
    else if w.pc.Updating? && e.Updated? then Some(Updates)
    else if w.pc.Deleting? && e.Deleted? then Some(Deletes)
    else None
  }

  /** A mutating external call is the first of its reconcile, the object is
      neither paused nor has it an invalid policy, and the policy grants it. */
  lemma OneGrantedCall(cfg: Config, w: World, es: seq<Event>, e: Event)
    requires Initial(w) && PoliteRun(cfg, w, es)
    requires Mutates(Exec(cfg, w, es), e).Some?
    ensures var u := Exec(cfg, w, es);
            u.calls == [] && Active(cfg, u.local) && Grants(cfg, u.local, Mutates(u, e).value)
  {
    hide Exec, PoliteRun, Active, DeletedForGood;
    InitialRound(cfg, w);
    RunKeepsRound(cfg, w, es);
  }

  /** Only mutating calls are counted, and each is. */
  lemma CallsCountMutations(cfg: Config, w: World, e: Event)
    ensures !e.Start? ==> Next(cfg, w, e).calls == match Mutates(w, e)
                                                   case Some(m) => w.calls + [m]
                                                   case None => w.calls
  {
    hide OnGot, OnWrote, OnCalled, OnReported, Commit, Write;
    match e
    case Got(r) => GotKeepsCalls(cfg, w, r);
    case Wrote(f) => WroteKeepsCalls(cfg, w, f);
    case Called(o) => CalledKeepsCalls(cfg, w, o);
    case Edit(o) => CommitCalls(w, o, 0);
    case Reported(f, status) => if w.pc.Reporting? { ReportedKeepsCalls(w, f, status); }
    case _ =>
  }

  lemma GotKeepsCalls(cfg: Config, w: World, r: Read)
    ensures OnGot(cfg, w, r).calls == w.calls
  {}

  lemma CalledKeepsCalls(cfg: Config, w: World, o: Outcome)
    ensures OnCalled(cfg, w, o).calls == w.calls
  {}

  lemma ReportedKeepsCalls(w: World, f: Fault, status: int)
    requires w.pc.Reporting?
    ensures OnReported(w, w.pc.res, f, status).calls == w.calls
  {}

  lemma WroteKeepsCalls(cfg: Config, w: World, f: Fault)
    ensures OnWrote(cfg, w, f).calls == w.calls
  {
    hide Write;
    var l := w.local;
    WriteKeepsExternal(w, Named(cfg, l), f);
    WriteKeepsExternal(w, l.(finalizers := l.finalizers - {FINALIZER}), f);
    WriteKeepsExternal(w, l.(finalizers := l.finalizers + {FINALIZER}), f);
    WriteKeepsExternal(w, l, f);
  }

  /** A reconcile that returns neither a requeue nor an error does so because the
      object is gone, paused, invalid, incompletely created, or finalized. */
  lemma QuietOnlyWhenDone(cfg: Config, w: World, es: seq<Event>, e: Event)
    requires cfg.poll > 0 && Initial(w) && PoliteRun(cfg, w, es)
    requires var u := Exec(cfg, w, es);
             var v := Next(cfg, u, e);
             !u.pc.Idle? && v.pc.Idle? && !e.Crash? && Quiet(v.result)
    ensures NothingToDo(cfg, Exec(cfg, w, es), e, Next(cfg, Exec(cfg, w, es), e))
  {
    hide Exec, PoliteRun, Next;
    InitialRound(cfg, w);
    RunKeepsRound(cfg, w, es);
    StepQuiet(cfg, Exec(cfg, w, es), e);
  }

  lemma StepQuiet(cfg: Config, w: World, e: Event)
    requires cfg.poll > 0 && RoundInv(cfg, w) && !w.pc.Idle? && Next(cfg, w, e).pc.Idle? && !e.Crash? && Quiet(Next(cfg, w, e).result)
    ensures NothingToDo(cfg, w, e, Next(cfg, w, e))
  {
    hide OnGot, OnWrote, OnCalled, OnReported, Commit, Write, CallsOk, Active, OnGaveUp;
    match e
    case Got(r) => QuietGot(cfg, w, r);
    case Wrote(f) => QuietWrote(cfg, w, f);
    case Called(o) => QuietCalled(cfg, w, o);
    case Reported(f, status) => QuietReported(w, f, status);
    case Edit(o) => CommitFacts(w, o, 0);
    case GaveUp(c) => NeverQuiet(w, c);
    case _ =>
  }

  lemma NeverQuiet(w: World, conflict: bool)
    requires !w.pc.Idle? && OnGaveUp(w, conflict).pc.Idle?
    ensures !Quiet(OnGaveUp(w, conflict).result)
  {}

  lemma QuietGot(cfg: Config, w: World, r: Read)
    requires !w.pc.Idle? && OnGot(cfg, w, r).pc.Idle? && Quiet(OnGot(cfg, w, r).result)
    ensures r == ReadMissing
  {}

  lemma QuietReported(w: World, f: Fault, status: int)
    requires w.pc.Reporting? && w.hist != [] && Quiet(OnReported(w, w.pc.res, f, status).result)
    ensures Quiet(w.pc.res)
  {}

  /** Nothing to remove: a deleted version without our finalizer stays so. */
  lemma QuietCalled(cfg: Config, w: World, o: Outcome)
    requires RoundInv(cfg, w) && !w.pc.Idle? && OnCalled(cfg, w, o).pc.Idle? && Quiet(OnCalled(cfg, w, o).result)
    ensures Finalized(OnCalled(cfg, w, o))
  {
    hide Active, AfterFinalizer, CallsOk;
    AfterFinalizerIdle(cfg, w);
    assert w.pc.Unpublishing? && FINALIZER !in w.local.finalizers && w.local.deleted;
    var last := |w.hist| - 1;
    if w.rv < last {
      assert FINALIZER !in w.hist[last].obj.finalizers;
    }
  }

  lemma AfterFinalizerIdle(cfg: Config, w: World)
    ensures !AfterFinalizer(cfg, w).pc.Idle?
  {}

  lemma QuietWrote(cfg: Config, w: World, f: Fault)
    requires RoundInv(cfg, w) && !w.pc.Idle? && OnWrote(cfg, w, f).pc.Idle? && Quiet(OnWrote(cfg, w, f).result)
    ensures Finalized(OnWrote(cfg, w, f))
  {
    hide DeletedForGood, Write, Commit, AfterInit, AfterFinalizer, AfterLateInit, CallsOk, ReportOk;
    var l := w.local;
    match w.pc
    case Initializing =>
      AfterInitIdle(cfg, Write(w, Named(cfg, l), f).w);
      WriteKeepsExternal(w, Named(cfg, l), f);
    case Finalizing(_) =>
      WriteRound(w, l.(finalizers := l.finalizers - {FINALIZER}), f);
    case AddingFinalizer =>
      AfterFinalizerIdle(cfg, Write(w, l.(finalizers := l.finalizers + {FINALIZER}), f).w);
    case WritingPending => WriteKeepsExternal(w, l, f);
    case WritingCritical(_) => WriteKeepsExternal(w, l, f);
    case LateInitializing => AfterLateInitIdle(cfg, Write(w, l, f).w);
    case _ => NothingWritten(cfg, w, f);
  }

  lemma AfterInitIdle(cfg: Config, w: World)
    ensures !AfterInit(cfg, w).pc.Idle?
  {}

  lemma AfterLateInitIdle(cfg: Config, w: World)
    ensures !AfterLateInit(cfg, w).pc.Idle?
  {}
}
