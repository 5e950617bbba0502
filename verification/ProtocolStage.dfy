/** What a reconcile knows while it records the outcome of a creation, in every run
of the step system: no assumption on Observe or on the grace period is needed. */
module ProtocolStage {
  import opened Meta
  import opened Protocol
  import opened ProtocolSafety
  import opened ProtocolLeak

  /** Creations are in the past. */
  predicate TimesOk(w: World) {
    forall k :: 0 <= k < |w.creates| ==> w.creates[k].at <= w.now
  }

  predicate RangeOk(w: World) {
    && (!w.pc.Idle? && !w.pc.Getting? ==> w.rv < |w.hist|)
    && (w.pc.Initializing? ==> ExternalName(w.local.notes) == "")
  }

  /** What is about to be recorded is not older than what has been. */
  predicate OutcomeOk(w: World)
    requires w.hist != []
  {
    w.pc.WritingCritical? || w.pc.RereadingCritical? ==> Latest(Current(w).notes) <= Latest(w.captured)
  }

  ghost predicate Staged(w: World) {
    w.hist != [] && StageOk(w) && OutcomeOk(w) && TimesOk(w) && RangeOk(w)
  }

  ghost predicate Inv1(w: World) {
    Inv(w) && Staged(w)
  }

  lemma Inv1Parts(w: World)
    requires Inv1(w)
    ensures w.hist != [] && Inv(w) && Staged(w) && LocalOk(w) && RangeOk(w) && HistoryOk(w) && AccountsOk(w)
  {}

  /** Recording the outcome of a creation, in its three stages. */
  predicate Outcoming(pc: Pc) {
    pc.Recording? || pc.WritingCritical? || pc.RereadingCritical?
  }

  /** Elsewhere there is little to keep. */
  lemma StagedElsewhere(w: World, v: World)
    requires w.hist != [] && TimesOk(w) && |w.hist| <= |v.hist| && v.creates == w.creates && w.now <= v.now
    requires !Outcoming(v.pc) && RangeOk(v)
    ensures Staged(v)
  {
    hide Records;
  }

  lemma StagedKept(w: World, v: World)
    requires Staged(w) && Untouched(w, v) && SameMarks(Current(v).notes, Current(w).notes)
    ensures Staged(v)
  {
    hide Records;
    StageKept(w, v);
  }

  lemma StagedEdit(w: World, o: Object)
    requires Staged(w) && Polite(w, Edit(o))
    ensures Staged(Commit(w, o, 0))
  {
    hide Commit, StageOk;
    CommitFacts(w, o, 0);
    StagedKept(w, Commit(w, o, 0));
  }

  lemma RangeGet(cfg: Config, w: World, i: nat)
    requires i < |w.hist|
    ensures RangeOk(AfterGet(cfg, w.(rv := i, local := w.hist[i].obj)))
    ensures !Outcoming(AfterGet(cfg, w.(rv := i, local := w.hist[i].obj)).pc)
  {
    hide Policy, IsPaused, CreateIncomplete;
  }

  lemma StagedReread(w: World, i: nat)
    requires Staged(w) && w.pc.RereadingCritical? && i < |w.hist|
    ensures var o := w.hist[i].obj;
            Staged(w.(pc := WritingCritical(w.pc.success), rv := i, local := o.(notes := AddAnnotations(o.notes, w.captured))))
  {}

  lemma StagedGot(cfg: Config, w: World, r: Read)
    requires Staged(w)
    ensures Staged(OnGot(cfg, w, r))
  {
    hide AfterGet, AddAnnotations, StageOk;
    var v := OnGot(cfg, w, r);
    GotKeepsHistory(cfg, w, r);
    GotKeepsExternal(cfg, w, r);
    if v == w {
    } else if w.pc.Getting? {
      if r.Read? { RangeGet(cfg, w, r.version); }
      StagedElsewhere(w, v);
    } else if r.Read? {
      StagedReread(w, r.version);
    } else {
      StagedRetry(w, v);
    }
  }

  lemma StagedRetry(w: World, v: World)
    requires Staged(w) && w.pc.RereadingCritical? && v == Goto(w, WritingCritical(w.pc.success))
    ensures Staged(v)
  {
    hide Records;
  }

  lemma StagedCreate(w: World, v: World, success: bool)
    requires Inv1(w) && w.pc.Creating? && v.pc == Recording(success)
    requires v.hist == w.hist && v.rv == w.rv && v.now == w.now && |v.creates| == |w.creates| + 1
    requires v.creates[..|w.creates|] == w.creates && v.creates[|w.creates|].at == w.now
    requires v.local.notes == w.local.notes.(name := v.local.notes.name)
    requires success ==> v.local.notes.name.Some? && v.creates[|w.creates|].name == v.local.notes.name
    requires !success ==> v.creates[|w.creates|].name.None? && v.local.notes == w.local.notes
    ensures Staged(v)
  {
    hide Records, AccountsOk, HistoryOk, AllAccounted, Latest;
    assert SameMarks(Current(w).notes, w.local.notes);
    assert forall k :: 0 <= k < |w.creates| ==> v.creates[k] == w.creates[..|w.creates|][k];
    assert w.local.notes.pending.Some?;
  }

  lemma RecordIsLater(w: World, success: bool)
    requires HistoryOk(w) && StageOk(w) && w.pc == Recording(success)
    ensures Latest(Current(w).notes) <= Latest(Record(w, success).captured)
  {
    hide Records;
    assert StampsBy(Current(w).notes, Stamp(w.now));
  }

  lemma StagedRecord(w: World, success: bool)
    requires Inv1(w) && w.pc == Recording(success)
    ensures Staged(Record(w, success))
  {
    hide AccountsOk, LocalOk, Latest;
    RecordIsLater(w, success);
    var last := w.creates[|w.creates| - 1];
    assert last.at < (Stamp(w.now) + 1) * SECOND && Stamp(w.now) > 0;
  }

  lemma StagedProceed(cfg: Config, w: World)
    requires Inv1(w)
    ensures Staged(OnProceed(cfg, w))
  {
    hide Decide, Record, StageOk, AccountsOk, HistoryOk, LocalOk;
    match w.pc
    case Deciding =>
      RangeDecide(cfg, w);
      StagedElsewhere(w, Decide(cfg, w));
    case Stamping => StagedElsewhere(w, OnProceed(cfg, w));
    case Recording(s) => StagedRecord(w, s);
    case _ =>
  }

  lemma RangeDecide(cfg: Config, w: World)
    requires RangeOk(w) && w.pc.Deciding?
    ensures var v := Decide(cfg, w);
            RangeOk(v) && !Outcoming(v.pc) && v.hist == w.hist && v.creates == w.creates && v.now == w.now
  {
    hide Policy, SucceededDuring;
  }

  lemma StagedCalled(cfg: Config, w: World, o: Outcome)
    requires Staged(w)
    ensures Staged(OnCalled(cfg, w, o))
  {
    hide StageOk, OnCalled;
    RangeCalled(cfg, w, o);
    CalledKeepsHistory(cfg, w, o);
    CalledKeepsExternal(cfg, w, o);
    if OnCalled(cfg, w, o) != w { StagedElsewhere(w, OnCalled(cfg, w, o)); }
  }

  lemma RangeCalled(cfg: Config, w: World, o: Outcome)
    requires RangeOk(w)
    ensures OnCalled(cfg, w, o) == w || (RangeOk(OnCalled(cfg, w, o)) && !Outcoming(OnCalled(cfg, w, o).pc))
  {
    hide Policy;
  }

  // ---- writes ----

  /** Writes that lead on to something other than recording an outcome. */
  lemma StagedAfterWrite(w: World, o: Object, f: Fault, v: World)
    requires Staged(w) && !w.pc.Idle? && !w.pc.Getting? && !Outcoming(v.pc) && !v.pc.Initializing?
    requires var a := Write(w, o, f); v.hist == a.w.hist && v.creates == a.w.creates && v.now == a.w.now && v.rv == a.w.rv
    ensures Staged(v)
  {
    hide StageOk, Write;
    WriteKeepsExternal(w, o, f);
    WriteKeepsRv(w, o, f);
    WriteGrows(w, o, f);
    StagedElsewhere(w, v);
  }

  lemma WriteGrows(w: World, o: Object, f: Fault)
    ensures |w.hist| <= |Write(w, o, f).w.hist|
  {}

  lemma AfterInitGoes(cfg: Config, w: World)
    ensures var v := AfterInit(cfg, w);
            !Outcoming(v.pc) && !v.pc.Initializing? && v.hist == w.hist && v.creates == w.creates && v.now == w.now && v.rv == w.rv
  {}

  lemma AfterFinalizerGoes(cfg: Config, w: World)
    ensures var v := AfterFinalizer(cfg, w);
            !Outcoming(v.pc) && !v.pc.Initializing? && v.hist == w.hist && v.creates == w.creates && v.now == w.now && v.rv == w.rv
  {
    hide Policy;
  }

  lemma AfterLateInitGoes(cfg: Config, w: World)
    ensures var v := AfterLateInit(cfg, w);
            !Outcoming(v.pc) && !v.pc.Initializing? && v.hist == w.hist && v.creates == w.creates && v.now == w.now && v.rv == w.rv
  {
    hide Policy;
  }

  lemma StagedWrote(cfg: Config, w: World, f: Fault)
    requires Staged(w)
    ensures Staged(OnWrote(cfg, w, f))
  {
    hide StageOk, Write, AfterInit, AfterFinalizer, AfterLateInit, Staged;
    var l, v := w.local, OnWrote(cfg, w, f);
    match w.pc
    case Initializing =>
      AfterInitGoes(cfg, Write(w, Named(cfg, l), f).w);
      StagedAfterWrite(w, Named(cfg, l), f, v);
    case Finalizing(_) => StagedAfterWrite(w, l.(finalizers := l.finalizers - {FINALIZER}), f, v);
    case AddingFinalizer =>
      AfterFinalizerGoes(cfg, Write(w, l.(finalizers := l.finalizers + {FINALIZER}), f).w);
      StagedAfterWrite(w, l.(finalizers := l.finalizers + {FINALIZER}), f, v);
    case WritingPending => StagedAfterWrite(w, l, f, v);
    case WritingCritical(_) => StagedWriteCritical(cfg, w, f);
    case LateInitializing =>
      AfterLateInitGoes(cfg, Write(w, l, f).w);
      StagedAfterWrite(w, l, f, v);
    case _ => NothingWritten(cfg, w, f);
  }

  lemma StagedWriteCritical(cfg: Config, w: World, f: Fault)
    requires Staged(w) && w.pc.WritingCritical?
    ensures Staged(OnWrote(cfg, w, f))
  {
    hide StageOk, Write, Commit;
    var a, v := Write(w, w.local, f), OnWrote(cfg, w, f);
    if a.result == Landed {
      StagedAfterWrite(w, w.local, f, v);
    } else {
      WriteEffect(w, w.local, f);
      CommitFacts(w, w.local, w.round);
      StagedTryAgain(w, a.w, v);
    }
  }

  lemma StagedTryAgain(w: World, c: World, v: World)
    requires Staged(w) && w.pc.WritingCritical? && Untouched(w, c) && c.now == w.now
    requires c == w || (w.rv + 1 == |w.hist| && (Current(c) == w.local || c == w))
    requires v == Goto(c, WritingCritical(w.pc.success)) || v == Goto(c, RereadingCritical(w.pc.success))
    ensures Staged(v)
  {}

  lemma StagedReported(w: World, f: Fault, status: int)
    requires Staged(w) && w.pc.Reporting?
    ensures Staged(OnReported(w, w.pc.res, f, status))
  {
    hide StageOk, Write;
    StagedAfterWrite(w, Current(w).(status := status), f, OnReported(w, w.pc.res, f, status));
  }

  lemma StagedCall(cfg: Config, w: World, e: Event)
    requires Inv1(w)
    requires e.Observed? || e.ObserveFailed? || e.Created? || e.CreateFailed? || e.Deleted? || e.Updated? || e.GaveUp?
    ensures Staged(Next(cfg, w, e))
  {
    hide StageOk, AccountsOk, HistoryOk, LocalOk, OnGot, OnWrote, OnCalled, OnProceed, OnReported;
    var v := Next(cfg, w, e);
    if v == w {
    } else if e.Created? || e.CreateFailed? {
      StagedCreate(w, v, e.Created?);
    } else {
      StagedElsewhere(w, v);
    }
  }

  /** The invariant is kept by every step. */
  lemma StepKeepsInv1(cfg: Config, w: World, e: Event)
    requires !cfg.deterministic && Inv1(w) && Polite(w, e) && Timely(w, e)
    ensures Inv1(Next(cfg, w, e))
  {
    hide Inv, Staged, OnGot, OnWrote, OnCalled, OnProceed, OnReported, Commit, OnGaveUp, OnCreated, OnCreateFailed,
      OnDeleted, OnUpdated, HistoryOk, AccountsOk, LocalOk, StageOk;
    StepKeepsInv(cfg, w, e);
    Inv1Parts(w);
    match e
    case Tick(d) => StagedQuiet(w, Next(cfg, w, e));
    case Vanish(n) => StagedQuiet(w, Next(cfg, w, e));
    case Edit(o) => StagedEdit(w, o);
    case Start => if w.pc.Idle? { StagedLeft(w, Next(cfg, w, e)); }
    case Crash => StagedLeft(w, Next(cfg, w, e));
    case Got(r) => StagedGot(cfg, w, r);
    case Wrote(f) => StagedWrote(cfg, w, f);
    case Reported(f, status) => if w.pc.Reporting? { StagedReported(w, f, status); }
    case Called(o) => StagedCalled(cfg, w, o);
    case Proceed => StagedProceed(cfg, w);
    case _ => StagedCall(cfg, w, e);
  }

  lemma StagedQuiet(w: World, v: World)
    requires Staged(w) && v == w.(now := v.now, live := v.live) && w.now <= v.now
    ensures Staged(v)
  {
    hide StageOk;
    StagedKept(w, v);
  }

  lemma StagedLeft(w: World, v: World)
    requires Staged(w) && (v.pc.Idle? || v.pc.Getting?) && v.hist == w.hist && v.creates == w.creates && v.now == w.now
    ensures Staged(v)
  {
    hide StageOk;
    StagedElsewhere(w, v);
  }

  lemma InitialInv1(w: World)
    requires Initial(w)
    ensures Inv1(w)
  {}
}
