/** Safety of the step system over whole runs: creations are accounted for, one
at a time, and each is preceded by a write that makes it detectable. */
module ProtocolSafety {
  import opened Text
  import opened Meta
  import opened Protocol

  // ---- the claims ----

  /** No version stored after the one Create was called with carries an outcome
      stamp for it. */
  ghost predicate Unaccounted(w: World, k: nat)
    requires k < |w.creates|
  {
    forall i :: w.creates[k].version < i < |w.hist| ==> Latest(w.hist[i].obj.notes) < w.creates[k].stamp
  }

  /** The same, told from the stored fields alone: since the version Create was
      called with, neither outcome stamp has been written. */
  predicate Unrecorded(w: World, k: nat)
    requires k < |w.creates|
  {
    && w.creates[k].version < |w.hist|
    && var n := w.hist[w.creates[k].version].obj.notes;
       forall i :: w.creates[k].version < i < |w.hist| ==>
         w.hist[i].obj.notes.succeeded == n.succeeded && w.hist[i].obj.notes.failed == n.failed
  }

  ghost predicate AllAccounted(w: World) {
    forall k :: 0 <= k < |w.creates| ==> !Unaccounted(w, k)
  }

  // ---- the invariant ----

  predicate StampsBy(n: Notes, second: nat) {
    Seconds(n.pending) <= second && Seconds(n.succeeded) <= second && Seconds(n.failed) <= second
  }

  predicate HistoryOk(w: World) {
    && w.hist != []
    && (forall i :: 0 <= i < |w.hist| ==> StampsBy(w.hist[i].obj.notes, Stamp(w.now)))
    && (forall k :: 0 <= k < |w.creates| ==>
          && w.creates[k].version < |w.hist| && 0 < w.creates[k].stamp <= Stamp(w.now)
          && Latest(w.hist[w.creates[k].version].obj.notes) < w.creates[k].stamp)
  }

  /** A creation that is not accounted for is the last one, and the current
      version shows it: its pending stamp is newer than any outcome. */
  ghost predicate AccountsOk(w: World)
    requires w.hist != []
  {
    forall k :: 0 <= k < |w.creates| && Unaccounted(w, k) ==>
      && k == |w.creates| - 1
      && Seconds(Current(w).notes.pending) == w.creates[k].stamp
      && Latest(Current(w).notes) < w.creates[k].stamp
  }

  /** Equal in everything but spec and status. */
  predicate Mirrors(a: Object, b: Object) {
    && a.notes == b.notes && a.finalizers == b.finalizers && a.deleted == b.deleted
    && a.policies == b.policies && a.deletionPolicy == b.deletionPolicy
  }

  /** The reconcile holds the version it read or last wrote. */
  predicate Holding(pc: Pc) {
    pc.Initializing? || pc.Unpublishing? || pc.Finalizing? || Cleared(pc)
  }

  /** It has passed the incomplete check and not yet stamped a creation. */
  predicate Cleared(pc: Pc) {
    || pc.Resolving? || pc.Connecting? || pc.Observing? || pc.Deciding? || pc.Deleting?
    || pc == Publishing(BeforeCreate) || pc.AddingFinalizer? || pc.Stamping? || pc.LateInitializing? || pc.Updating?
    || pc == Unpublishing(false) || pc == Finalizing(false)
  }

  /** Every version after the checked one, up to the one held, is our own. */
  predicate OwnSince(w: World) {
    && w.checked <= w.rv < |w.hist|
    && !CreateIncomplete(w.hist[w.checked].obj.notes)
    && forall i :: w.checked < i <= w.rv ==> w.hist[i].writer == w.round
  }

  predicate PendingOk(w: World) {
    && w.rv < |w.hist|
    && var o := w.hist[w.rv].obj;
       && !CreateIncomplete(o.notes)
       && Mirrors(w.local, o.(notes := o.notes.(pending := w.local.notes.pending)))
       && Latest(w.local.notes) < Seconds(w.local.notes.pending) <= Stamp(w.now)
  }

  ghost predicate CreatingOk(w: World)
    requires w.hist != []
  {
    && w.checked < w.rv < |w.hist|
    && Mirrors(w.local, w.hist[w.rv].obj)
    && (forall i :: w.rv <= i < |w.hist| ==> SameMarks(w.hist[i].obj.notes, w.local.notes))
    && Latest(w.local.notes) < Seconds(w.local.notes.pending)
    && Seconds(w.hist[w.rv - 1].obj.notes.pending) < Seconds(w.local.notes.pending)
    && AllAccounted(w)
  }

  function OutcomeOf(n: Notes, success: bool): Option<nat> {
    if success then n.succeeded else n.failed
  }

  predicate CapturedOk(w: World, success: bool) {
    && |w.creates| > 0
    && w.creates[|w.creates| - 1].stamp <= Seconds(OutcomeOf(w.captured, success))
    && OutcomeOf(w.captured, success).Some?
    && StampsBy(w.captured, Stamp(w.now))
  }

  ghost predicate LocalOk(w: World)
    requires w.hist != []
  {
    && (Holding(w.pc) ==> w.rv < |w.hist| && Mirrors(w.local, w.hist[w.rv].obj))
    && (Cleared(w.pc) || w.pc.WritingPending? || w.pc.Creating? ==> OwnSince(w))
    && (Cleared(w.pc) ==> !CreateIncomplete(w.local.notes))
    && (w.pc == Publishing(BeforeCreate) || w.pc.AddingFinalizer? || w.pc.Stamping? || w.pc.WritingPending? || w.pc.Creating?
        ==> !w.local.deleted)
    && (w.pc.Stamping? || w.pc.WritingPending? || w.pc.Creating? ==> FINALIZER in w.local.finalizers)
    && (w.pc.WritingPending? ==> PendingOk(w))
    && (w.pc.Creating? ==> CreatingOk(w))
    && (w.pc.Recording? ==> |w.creates| > 0 && StampsBy(w.local.notes, Stamp(w.now)))
    && (w.pc.WritingCritical? || w.pc.RereadingCritical? ==>
          && CapturedOk(w, w.pc.success)
          && OutcomeOf(w.local.notes, w.pc.success) == OutcomeOf(w.captured, w.pc.success)
          && StampsBy(w.local.notes, Stamp(w.now)))
  }

  ghost predicate Inv(w: World) {
    HistoryOk(w) && AccountsOk(w) && LocalOk(w)
  }

  // ---- storing a version ----

  lemma CommitHistory(w: World, o: Object, writer: nat)
    requires HistoryOk(w) && StampsBy(o.notes, Stamp(w.now))
    ensures HistoryOk(Commit(w, o, writer))
    ensures forall k :: 0 <= k < |w.creates| && Unaccounted(Commit(w, o, writer), k) ==> Unaccounted(w, k)
    ensures AllAccounted(w) ==> AllAccounted(Commit(w, o, writer))
  {
    hide Latest, StampsBy;
    var c := Commit(w, o, writer);
    assert forall i :: 0 <= i < |w.hist| ==> c.hist[i] == w.hist[i];
    forall k | 0 <= k < |c.creates| && Unaccounted(c, k) ensures Unaccounted(w, k) {}
  }

  /** A version with the reconciler's stamps unchanged keeps the accounts. */
  lemma CommitSameStamps(w: World, o: Object, writer: nat)
    requires HistoryOk(w) && AccountsOk(w)
    requires o.notes.pending == Current(w).notes.pending
    requires o.notes.succeeded == Current(w).notes.succeeded && o.notes.failed == Current(w).notes.failed
    ensures HistoryOk(Commit(w, o, writer)) && AccountsOk(Commit(w, o, writer))
    ensures AllAccounted(w) ==> AllAccounted(Commit(w, o, writer))
  {
    hide Unaccounted, AllAccounted;
    CommitHistory(w, o, writer);
  }

  /** Storing the first pending stamp after everything is accounted for. */
  lemma CommitPending(w: World, o: Object, writer: nat)
    requires HistoryOk(w) && AccountsOk(w) && !CreateIncomplete(Current(w).notes)
    requires StampsBy(o.notes, Stamp(w.now))
    ensures HistoryOk(Commit(w, o, writer)) && AccountsOk(Commit(w, o, writer)) && AllAccounted(Commit(w, o, writer))
  {
    hide Unaccounted, Latest;
    CommitHistory(w, o, writer);
    assert AllAccounted(w) by { NothingPending(w); }
  }

  lemma NothingPending(w: World)
    requires HistoryOk(w) && AccountsOk(w) && !CreateIncomplete(Current(w).notes)
    ensures AllAccounted(w)
  {
    hide Unaccounted;
  }

  /** Storing an outcome accounts for the last creation. */
  lemma CommitOutcome(w: World, o: Object, writer: nat)
    requires HistoryOk(w) && AccountsOk(w) && |w.creates| > 0
    requires StampsBy(o.notes, Stamp(w.now)) && Latest(o.notes) >= w.creates[|w.creates| - 1].stamp
    ensures HistoryOk(Commit(w, o, writer)) && AccountsOk(Commit(w, o, writer))
  {
    hide Latest, StampsBy;
    CommitHistory(w, o, writer);
    var c := Commit(w, o, writer);
    if c != w {
      var last := |w.creates| - 1;
      assert Latest(c.hist[|c.hist| - 1].obj.notes) >= w.creates[last].stamp;
      assert !Unaccounted(c, last);
    }
  }

  // ---- steps of the environment ----

  /** The reconcile under way has not moved; versions may have been added by
      others, time may have passed. */
  predicate Untouched(w: World, v: World) {
    && v.pc == w.pc && v.rv == w.rv && v.local == w.local && v.checked == w.checked && v.captured == w.captured
    && v.creates == w.creates && v.round == w.round && w.now <= v.now
    && |w.hist| <= |v.hist| && forall i :: 0 <= i < |w.hist| ==> v.hist[i] == w.hist[i]
  }

  lemma LocalKept(w: World, v: World)
    requires HistoryOk(w) && LocalOk(w) && Untouched(w, v)
    requires forall i :: |w.hist| <= i < |v.hist| ==> SameMarks(v.hist[i].obj.notes, Current(w).notes)
    requires AllAccounted(w) ==> AllAccounted(v)
    ensures LocalOk(v)
  {
    hide AllAccounted, CreateIncomplete, Latest, Holding, Cleared;
    assert Stamp(w.now) <= Stamp(v.now);
    assert forall i :: 0 <= i < |v.hist| ==> v.hist[i] == if i < |w.hist| then w.hist[i] else v.hist[i];
  }

  lemma StepTick(w: World, d: nat)
    requires Inv(w)
    ensures Inv(w.(now := w.now + d))
  {
    var v := w.(now := w.now + d);
    assert Stamp(w.now) <= Stamp(v.now);
    forall k | 0 <= k < |v.creates| ensures Unaccounted(v, k) <==> Unaccounted(w, k) {}
    LocalKept(w, v);
  }

  lemma StepEdit(w: World, o: Object)
    requires Inv(w) && Polite(w, Edit(o))
    ensures Inv(Commit(w, o, 0))
  {
    CommitSameStamps(w, o, 0);
    LocalKept(w, Commit(w, o, 0));
  }

  lemma StepVanish(w: World, n: string)
    requires Inv(w)
    ensures Inv(w.(live := w.live - {n}))
  {
    var v := w.(live := w.live - {n});
    forall k | 0 <= k < |v.creates| ensures Unaccounted(v, k) <==> Unaccounted(w, k) {}
    LocalKept(w, v);
  }

  /** Leaving a reconcile, or beginning one, asks nothing of the local state. */
  lemma StepLeave(w: World, v: World)
    requires HistoryOk(w) && AccountsOk(w)
    requires v.hist == w.hist && v.creates == w.creates && v.now == w.now
    requires v.pc.Idle? || v.pc.Getting? || v.pc.Reporting? || v.pc == Publishing(AfterCreate) || v.pc == Publishing(AfterUpdate)
    ensures Inv(v)
  {
    forall k | 0 <= k < |v.creates| ensures Unaccounted(v, k) <==> Unaccounted(w, k) {}
  }

  // ---- steps of the reconcile ----

  lemma SameAccounts(w: World, v: World)
    requires HistoryOk(w) && AccountsOk(w)
    requires v.hist == w.hist && v.creates == w.creates && v.now == w.now
    ensures HistoryOk(v) && AccountsOk(v) && (AllAccounted(w) ==> AllAccounted(v))
  {
    forall k | 0 <= k < |v.creates| ensures Unaccounted(v, k) <==> Unaccounted(w, k) {}
  }

  /** A step that only decides what to do next. */
  lemma StepGoto(w: World, pc: Pc)
    requires Inv(w) && Cleared(w.pc) && (Cleared(pc) || pc.Unpublishing? || pc.Finalizing?)
    requires pc == Publishing(BeforeCreate) || pc.AddingFinalizer? || pc.Stamping? ==> !w.local.deleted
    requires pc.Stamping? ==> FINALIZER in w.local.finalizers
    ensures Inv(Goto(w, pc))
  {
    SameAccounts(w, Goto(w, pc));
  }

  lemma StepAfterInit(cfg: Config, w: World)
    requires !cfg.deterministic && HistoryOk(w) && AccountsOk(w)
    requires w.rv < |w.hist| && Mirrors(w.local, w.hist[w.rv].obj)
    ensures Inv(AfterInit(cfg, w))
  {
    hide HistoryOk, AccountsOk, AllAccounted, Latest;
    var v := AfterInit(cfg, w);
    SameAccounts(w, v);
    NotEmpty(w);
  }

  lemma StepGet(cfg: Config, w: World, i: nat)
    requires !cfg.deterministic && Inv(w) && i < |w.hist|
    ensures Inv(AfterGet(cfg, w.(rv := i, local := w.hist[i].obj)))
  {
    hide AfterInit, HistoryOk, AccountsOk, Policy, IsPaused;
    var u := w.(rv := i, local := w.hist[i].obj);
    SameAccounts(w, u);
    StepAfterInit(cfg, u);
    var v := AfterGet(cfg, u);
    if v != AfterInit(cfg, u) { SameAccounts(w, v); }
  }

  lemma StepReread(w: World, i: nat)
    requires Inv(w) && w.pc.RereadingCritical? && i < |w.hist|
    ensures var o := w.hist[i].obj;
            Inv(w.(pc := WritingCritical(w.pc.success), rv := i, local := o.(notes := AddAnnotations(o.notes, w.captured))))
  {
    hide AllAccounted;
    var o := w.hist[i].obj;
    var v := w.(pc := WritingCritical(w.pc.success), rv := i, local := o.(notes := AddAnnotations(o.notes, w.captured)));
    SameAccounts(w, v);
    assert StampsBy(o.notes, Stamp(w.now));
  }

  lemma StepDecide(cfg: Config, w: World)
    requires Inv(w) && w.pc.Deciding?
    ensures Inv(Decide(cfg, w))
  {
    hide Inv, HistoryOk, AccountsOk, LocalOk, SucceededDuring;
    InvParts(w);
    var v := Decide(cfg, w);
    if v.pc.Idle? || v.pc.Reporting? { StepLeave(w, v); } else { StepGoto(w, v.pc); }
  }

  lemma InvParts(w: World)
    requires Inv(w)
    ensures HistoryOk(w) && AccountsOk(w) && LocalOk(w)
  {}

  lemma StepAfterLateInit(cfg: Config, w: World)
    requires HistoryOk(w) && AccountsOk(w) && OwnSince(w)
    requires w.rv < |w.hist| && Mirrors(w.local, w.hist[w.rv].obj) && !CreateIncomplete(w.local.notes)
    ensures Inv(AfterLateInit(cfg, w))
  {
    SameAccounts(w, AfterLateInit(cfg, w));
  }

  lemma StepAfterFinalizer(cfg: Config, w: World)
    requires HistoryOk(w) && AccountsOk(w) && OwnSince(w)
    requires w.rv < |w.hist| && Mirrors(w.local, w.hist[w.rv].obj) && !CreateIncomplete(w.local.notes)
    requires !w.local.deleted && FINALIZER in w.local.finalizers
    ensures Inv(AfterFinalizer(cfg, w))
  {
    hide AfterLateInit;
    StepAfterLateInit(cfg, w);
    var v := AfterFinalizer(cfg, w);
    if v != AfterLateInit(cfg, w) { SameAccounts(w, v); }
  }

  lemma StepStamp(w: World)
    requires Inv(w) && w.pc.Stamping? && Stamp(w.now) > Latest(w.local.notes)
    ensures Inv(w.(pc := WritingPending, local := w.local.(notes := w.local.notes.(pending := Some(Stamp(w.now))))))
  {
    var v := w.(pc := WritingPending, local := w.local.(notes := w.local.notes.(pending := Some(Stamp(w.now)))));
    SameAccounts(w, v);
  }

  lemma StepRecord(w: World, success: bool)
    requires Inv(w) && w.pc == Recording(success)
    ensures Inv(Record(w, success))
  {
    SameAccounts(w, Record(w, success));
  }

  /** Create is called: nothing was unaccounted for before, and now at most this. */
  lemma StepCreate(w: World, v: World, c: Creation)
    requires Inv(w) && w.pc.Creating? && v.pc.Recording?
    requires v.hist == w.hist && v.now == w.now && v.creates == w.creates + [c]
    requires c.stamp == Seconds(w.local.notes.pending) && c.version == w.rv
    requires v.local.notes == w.local.notes.(name := v.local.notes.name)
    ensures Inv(v)
  {
    hide Latest;
    CreateAccounts(w, v, c);
    assert StampsBy(w.hist[w.rv].obj.notes, Stamp(w.now));
  }

  lemma CreateAccounts(w: World, v: World, c: Creation)
    requires HistoryOk(w) && CreatingOk(w)
    requires v.hist == w.hist && v.now == w.now && v.creates == w.creates + [c]
    requires c.stamp == Seconds(w.local.notes.pending) && c.version == w.rv
    ensures HistoryOk(v) && AccountsOk(v)
  {
    hide Latest, CreateIncomplete;
    assert StampsBy(w.hist[w.rv].obj.notes, Stamp(w.now));
    forall j | 0 <= j < |w.creates| ensures !Unaccounted(v, j) {
      assert !Unaccounted(w, j);
      assert v.creates[j] == w.creates[j];
    }
    LatestOfSame(w.local.notes, Current(w).notes);
  }

  lemma LatestOfSame(a: Notes, b: Notes)
    requires SameMarks(a, b)
    ensures Latest(a) == Latest(b)
  {}

  // ---- writes ----

  /** A write that takes effect was made on the current version. */
  lemma WriteEffect(w: World, o: Object, f: Fault)
    requires w.hist != []
    ensures var a := Write(w, o, f);
            && (a.w.hist != w.hist ==> !w.gone && w.rv + 1 == |w.hist|)
            && (a.w == w || a.w == Commit(w, o, w.round) || a.result == Landed)
            && (a.result == Landed ==>
                  && !w.gone && w.rv + 1 == |w.hist|
                  && a.w == Commit(w, o, w.round).(rv := |Commit(w, o, w.round).hist| - 1, local := o)
                  && Current(a.w) == o && a.w.rv + 1 == |a.w.hist|)
  {}

  /** Whatever the write does, the accounts stay right if its content is. */
  lemma WriteAccounts(w: World, o: Object, f: Fault)
    requires HistoryOk(w) && AccountsOk(w)
    requires !w.gone && w.rv + 1 == |w.hist| ==>
               HistoryOk(Commit(w, o, w.round)) && AccountsOk(Commit(w, o, w.round))
    ensures HistoryOk(Write(w, o, f).w) && AccountsOk(Write(w, o, f).w)
  {
    var a := Write(w, o, f);
    if a.result == Landed { SameAccounts(Commit(w, o, w.round), a.w); }
  }

  lemma StepFailure(w: World, conflict: bool)
    requires HistoryOk(w) && AccountsOk(w)
    ensures Inv(OnFailure(w, conflict))
  {
    StepLeave(w, OnFailure(w, conflict));
  }

  /** Writes that leave the stamps alone. */
  lemma WriteSameStamps(w: World, o: Object, f: Fault)
    requires HistoryOk(w) && AccountsOk(w)
    requires w.rv < |w.hist| && o.notes == w.hist[w.rv].obj.notes.(name := o.notes.name)
    ensures HistoryOk(Write(w, o, f).w) && AccountsOk(Write(w, o, f).w)
  {
    if w.rv + 1 == |w.hist| { CommitSameStamps(w, o, w.round); }
    WriteAccounts(w, o, f);
  }

  /** After a landed write everything since the check is still our own. */
  lemma OwnAfterWrite(w: World, o: Object, f: Fault)
    requires w.hist != [] && OwnSince(w) && Write(w, o, f).result == Landed
    ensures OwnSince(Write(w, o, f).w)
    ensures o.notes != Current(w).notes ==> w.checked < Write(w, o, f).w.rv
  {
    hide CreateIncomplete;
  }

  lemma StepInitialize(cfg: Config, w: World, f: Fault)
    requires !cfg.deterministic && Inv(w) && w.pc.Initializing?
    ensures Inv(OnWrote(cfg, w, f))
  {
    hide AfterInit, Write, Commit, AccountsOk, HistoryOk;
    var o := Named(cfg, w.local);
    var a := Write(w, o, f);
    NotEmpty(w);
    WriteEffect(w, o, f);
    WriteSameStamps(w, o, f);
    if a.result == Landed { StepAfterInit(cfg, a.w); } else { StepFailure(a.w, a.result == Conflicted); }
  }

  lemma NotEmpty(w: World)
    requires HistoryOk(w)
    ensures w.hist != []
  {}

  lemma StepFinalize(cfg: Config, w: World, f: Fault)
    requires Inv(w) && w.pc.Finalizing?
    ensures Inv(OnWrote(cfg, w, f))
  {
    hide Write, Commit, AccountsOk, HistoryOk;
    var o := w.local.(finalizers := w.local.finalizers - {FINALIZER});
    NotEmpty(w);
    WriteSameStamps(w, o, f);
    StepLeave(Write(w, o, f).w, OnWrote(cfg, w, f));
  }

  lemma StepAddFinalizer(cfg: Config, w: World, f: Fault)
    requires Inv(w) && w.pc.AddingFinalizer?
    ensures Inv(OnWrote(cfg, w, f))
  {
    hide AfterFinalizer, Write, Commit, AccountsOk, HistoryOk;
    var o := w.local.(finalizers := w.local.finalizers + {FINALIZER});
    var a := Write(w, o, f);
    NotEmpty(w);
    WriteEffect(w, o, f);
    WriteSameStamps(w, o, f);
    if a.result == Landed {
      OwnAfterWrite(w, o, f);
      StepAfterFinalizer(cfg, a.w);
    } else {
      StepFailure(a.w, a.result == Conflicted);
    }
  }

  lemma StepLateInit(cfg: Config, w: World, f: Fault)
    requires Inv(w) && w.pc.LateInitializing?
    ensures Inv(OnWrote(cfg, w, f))
  {
    hide AfterLateInit, Write, Commit, AccountsOk, HistoryOk;
    var a := Write(w, w.local, f);
    NotEmpty(w);
    WriteEffect(w, w.local, f);
    WriteSameStamps(w, w.local, f);
    if a.result == Landed {
      OwnAfterWrite(w, w.local, f);
      StepAfterLateInit(cfg, a.w);
    } else {
      StepFailure(a.w, false);
    }
  }

  lemma StepWritePending(cfg: Config, w: World, f: Fault)
    requires Inv(w) && w.pc.WritingPending?
    ensures Inv(OnWrote(cfg, w, f))
  {
    hide Write, Commit, AccountsOk, HistoryOk, AllAccounted, CreatingOk, Mirrors;
    var a := Write(w, w.local, f);
    NotEmpty(w);
    PendingFacts(w);
    if w.rv + 1 == |w.hist| { CommitPending(w, w.local, w.round); }
    WriteAccounts(w, w.local, f);
    if a.result == Landed {
      PendingLands(w, f);
      SameAccounts(a.w, Goto(a.w, Creating));
    } else {
      StepFailure(a.w, a.result == Conflicted);
    }
  }

  /** The announcement is stored: everything before it is accounted for. */
  lemma PendingLands(w: World, f: Fault)
    requires Inv(w) && w.pc.WritingPending? && Write(w, w.local, f).result == Landed
    ensures var v := Goto(Write(w, w.local, f).w, Creating);
            && v.local == w.local && OwnSince(v) && v.hist != [] && CreatingOk(v)
  {
    hide AccountsOk, HistoryOk, AllAccounted, Latest, CreateIncomplete, Write, Commit;
    var a := Write(w, w.local, f);
    NotEmpty(w);
    PendingFacts(w);
    WriteEffect(w, w.local, f);
    WriteAdds(w, w.local, f);
    CommitPending(w, w.local, w.round);
    OwnAfterWrite(w, w.local, f);
    SameAccountsAll(Commit(w, w.local, w.round), Goto(a.w, Creating));
  }

  lemma WriteAdds(w: World, o: Object, f: Fault)
    requires w.hist != [] && Write(w, o, f).result == Landed && o != Current(w)
    ensures var v := Write(w, o, f).w;
            && |v.hist| == |w.hist| + 1 && v.rv == |w.hist| && v.hist[|w.hist|].obj == o
            && v.hist[|w.hist| - 1] == w.hist[|w.hist| - 1] && v.checked == w.checked
  {}

  lemma PendingFacts(w: World)
    requires HistoryOk(w) && PendingOk(w)
    ensures StampsBy(w.local.notes, Stamp(w.now))
    ensures w.rv + 1 == |w.hist| ==>
              && !CreateIncomplete(Current(w).notes) && w.local.notes != Current(w).notes
              && Seconds(Current(w).notes.pending) < Seconds(w.local.notes.pending)
  {
    assert StampsBy(w.hist[w.rv].obj.notes, Stamp(w.now));
  }

  lemma SameAccountsAll(w: World, v: World)
    requires HistoryOk(w) && AccountsOk(w) && AllAccounted(w)
    requires v.hist == w.hist && v.creates == w.creates && v.now == w.now
    ensures HistoryOk(v) && AccountsOk(v) && AllAccounted(v)
  {
    SameAccounts(w, v);
  }

  lemma StepWriteCritical(cfg: Config, w: World, f: Fault)
    requires Inv(w) && w.pc.WritingCritical?
    ensures Inv(OnWrote(cfg, w, f))
  {
    hide Write, Commit, AccountsOk, HistoryOk, LocalOk;
    var a := Write(w, w.local, f);
    var v := OnWrote(cfg, w, f);
    CriticalAccounts(w, f);
    WriteEffect(w, w.local, f);
    CommitKeeps(w, w.local, w.round);
    SameAccounts(a.w, v);
    if a.result == Landed { StepLeave(a.w, v); } else { CriticalLocal(w, v); }
  }

  lemma CriticalAccounts(w: World, f: Fault)
    requires Inv(w) && w.pc.WritingCritical?
    ensures w.hist != [] && HistoryOk(Write(w, w.local, f).w) && AccountsOk(Write(w, w.local, f).w)
  {
    hide Write, Commit, AccountsOk;
    OutcomeIsLatest(w.local.notes, w.pc.success);
    if w.rv + 1 == |w.hist| { CommitOutcome(w, w.local, w.round); }
    WriteAccounts(w, w.local, f);
  }

  lemma CriticalLocal(w: World, v: World)
    requires w.hist != [] && v.hist != [] && LocalOk(w)
    requires w.pc.WritingCritical? || w.pc.RereadingCritical?
    requires v.pc == WritingCritical(w.pc.success) || v.pc == RereadingCritical(w.pc.success)
    requires v.local == w.local && v.captured == w.captured && v.creates == w.creates && v.now == w.now
    ensures LocalOk(v)
  {
    hide AllAccounted, Latest;
  }

  lemma OutcomeIsLatest(n: Notes, success: bool)
    ensures Latest(n) >= Seconds(OutcomeOf(n, success))
  {}

  lemma CommitKeeps(w: World, o: Object, writer: nat)
    requires w.hist != []
    ensures Untouched(w, Commit(w, o, writer)) && Commit(w, o, writer).now == w.now
  {}

  lemma StepReport(w: World, f: Fault, status: int)
    requires Inv(w) && w.pc.Reporting?
    ensures Inv(OnReported(w, w.pc.res, f, status))
  {
    hide Write, Commit, AccountsOk, HistoryOk, LocalOk;
    NotEmpty(w);
    var o := Current(w).(status := status);
    ReportAccounts(w, o, f);
    StepLeave(Write(w, o, f).w, OnReported(w, w.pc.res, f, status));
  }

  lemma ReportAccounts(w: World, o: Object, f: Fault)
    requires HistoryOk(w) && AccountsOk(w) && o.notes == Current(w).notes
    ensures HistoryOk(Write(w, o, f).w) && AccountsOk(Write(w, o, f).w)
  {
    CommitSameStamps(w, o, w.round);
    WriteAccounts(w, o, f);
  }

  // ---- every step, every run ----

  lemma StepGot(cfg: Config, w: World, r: Read)
    requires !cfg.deterministic && Inv(w)
    ensures Inv(OnGot(cfg, w, r))
  {
    hide AfterGet, AddAnnotations, AccountsOk, HistoryOk;
    var v := OnGot(cfg, w, r);
    if v == w {
    } else if w.pc.Getting? {
      if r.Read? { StepGet(cfg, w, r.version); } else { StepLeave(w, v); }
    } else if r.Read? {
      StepReread(w, r.version);
    } else {
      RetryKeeps(w, v);
    }
  }

  lemma RetryKeeps(w: World, v: World)
    requires Inv(w) && w.pc.RereadingCritical? && v == Goto(w, WritingCritical(w.pc.success))
    ensures Inv(v)
  {
    SameAccounts(w, v);
    CriticalLocal(w, v);
  }

  lemma StepWrote(cfg: Config, w: World, f: Fault)
    requires !cfg.deterministic && Inv(w)
    ensures Inv(OnWrote(cfg, w, f))
  {
    match w.pc
    case Initializing => StepInitialize(cfg, w, f);
    case Finalizing(_) => StepFinalize(cfg, w, f);
    case AddingFinalizer => StepAddFinalizer(cfg, w, f);
    case WritingPending => StepWritePending(cfg, w, f);
    case WritingCritical(_) => StepWriteCritical(cfg, w, f);
    case LateInitializing => StepLateInit(cfg, w, f);
    case _ =>
      NothingWritten(cfg, w, f);
  }

  lemma NothingWritten(cfg: Config, w: World, f: Fault)
    requires !(w.pc.Initializing? || w.pc.Finalizing? || w.pc.AddingFinalizer? || w.pc.WritingPending?
               || w.pc.WritingCritical? || w.pc.LateInitializing?)
    ensures OnWrote(cfg, w, f) == w
  {}

  lemma StepCalled(cfg: Config, w: World, o: Outcome)
    requires Inv(w)
    ensures Inv(OnCalled(cfg, w, o))
  {
    hide AfterFinalizer, AccountsOk, HistoryOk;
    var v := OnCalled(cfg, w, o);
    if o != Succeeds || w.pc == Publishing(AfterCreate) || w.pc == Publishing(AfterUpdate) {
      if v != w { StepLeave(w, v); }
    } else if w.pc == Publishing(BeforeCreate) {
      if FINALIZER in w.local.finalizers {
        StepAfterFinalizer(cfg, w);
      } else {
        StepGoto(w, AddingFinalizer);
      }
    } else if w.pc.Unpublishing? {
      StepUnpublished(w);
    } else if w.pc.Resolving? || w.pc.Connecting? {
      StepGoto(w, v.pc);
    }
  }

  lemma StepUnpublished(w: World)
    requires Inv(w) && w.pc.Unpublishing?
    ensures Inv(AfterUnpublish(w, w.pc.orphan))
  {
    hide HistoryOk, AccountsOk, AllAccounted, CreateIncomplete, Latest;
    SameAccounts(w, AfterUnpublish(w, w.pc.orphan));
    NotEmpty(w);
  }

  lemma StepProceed(cfg: Config, w: World)
    requires Inv(w) && Timely(w, Proceed)
    ensures Inv(OnProceed(cfg, w))
  {
    hide Decide, Record, AccountsOk, HistoryOk, LocalOk;
    match w.pc
    case Deciding => StepDecide(cfg, w);
    case Stamping => StepStamp(w);
    case Recording(s) => StepRecord(w, s);
    case _ =>
  }

  lemma StepCall(cfg: Config, w: World, e: Event)
    requires Inv(w) && (e.Observed? || e.ObserveFailed? || e.Created? || e.CreateFailed? || e.Deleted? || e.Updated? || e.GaveUp?)
    ensures Inv(Next(cfg, w, e))
  {
    hide AccountsOk, HistoryOk, OnGot, OnWrote, OnCalled, OnProceed, OnReported;
    var v := Next(cfg, w, e);
    if v == w {
    } else if e.Observed? {
      StepObserved(w, v);
    } else if e.Created? || e.CreateFailed? {
      StepCreate(w, v, v.creates[|w.creates|]);
    } else {
      StepLeave(w, v);
    }
  }

  lemma StepObserved(w: World, v: World)
    requires Inv(w) && w.pc.Observing? && v.pc.Deciding? && v.local == w.local.(spec := v.local.spec)
    requires v == w.(pc := v.pc, seen := v.seen, seenAt := v.seenAt, local := v.local)
    ensures Inv(v)
  {
    SameAccounts(w, v);
  }

  /** The invariant is kept by every step. */
  lemma StepKeepsInv(cfg: Config, w: World, e: Event)
    requires !cfg.deterministic && Inv(w) && Polite(w, e) && Timely(w, e)
    ensures Inv(Next(cfg, w, e))
  {
    hide AccountsOk, HistoryOk, LocalOk, OnGot, OnWrote, OnCalled, OnProceed, OnReported, Commit, OnGaveUp, OnCreated,
      OnCreateFailed, OnDeleted, OnUpdated;
    match e
    case Tick(d) => StepTick(w, d);
    case Edit(o) => StepEdit(w, o);
    case Vanish(n) => StepVanish(w, n);
    case Start => if w.pc.Idle? { StepLeave(w, Next(cfg, w, e)); }
    case Crash => StepLeave(w, Next(cfg, w, e));
    case Got(r) => StepGot(cfg, w, r);
    case Wrote(f) => StepWrote(cfg, w, f);
    case Reported(f, status) => if w.pc.Reporting? { StepReport(w, f, status); }
    case Called(o) => StepCalled(cfg, w, o);
    case Proceed => StepProceed(cfg, w);
    case _ => StepCall(cfg, w, e);
  }

  lemma InitialInv(w: World)
    requires Initial(w)
    ensures Inv(w)
  {}

  lemma {:induction false} RunKeepsInv(cfg: Config, w: World, es: seq<Event>)
    requires !cfg.deterministic && Inv(w) && SafeRun(cfg, w, es)
    ensures Inv(Exec(cfg, w, es))
    decreases |es|
  {
    hide Inv, Next;
    if es != [] {
      StepKeepsInv(cfg, w, es[0]);
      RunKeepsInv(cfg, Next(cfg, w, es[0]), es[1..]);
    }
  }

  // ---- what replies leave alone ----

  predicate SameExternal(w: World, v: World) {
    v.creates == w.creates && v.live == w.live && v.now == w.now && v.round == w.round
  }

  /** The object a write sends. */
  function Sent(cfg: Config, w: World): Object {
    match w.pc
    case Initializing => Named(cfg, w.local)
    case Finalizing(_) => w.local.(finalizers := w.local.finalizers - {FINALIZER})
    case AddingFinalizer => w.local.(finalizers := w.local.finalizers + {FINALIZER})
    case _ => w.local
  }

  /** After a write only where the reconcile is changes. */
  lemma WroteIsWrite(cfg: Config, w: World, f: Fault)
    ensures var v, a := OnWrote(cfg, w, f), Write(w, Sent(cfg, w), f).w;
            v == w || v == a.(pc := v.pc, checked := v.checked, result := v.result)
    ensures w.pc.Idle? || w.pc.Getting? ==> OnWrote(cfg, w, f) == w
  {
    hide Write, Policy, CreateIncomplete;
  }

  lemma WriteKeepsExternal(w: World, o: Object, f: Fault)
    ensures SameExternal(w, Write(w, o, f).w) && Write(w, o, f).w.pc == w.pc
    ensures Write(w, o, f).w.seen == w.seen && Write(w, o, f).w.calls == w.calls
  {}

  lemma GotKeepsExternal(cfg: Config, w: World, r: Read)
    ensures SameExternal(w, OnGot(cfg, w, r))
  {}

  lemma WroteKeepsExternal(cfg: Config, w: World, f: Fault)
    ensures SameExternal(w, OnWrote(cfg, w, f))
  {
    hide Write;
    var l := w.local;
    WriteKeepsExternal(w, Named(cfg, l), f);
    WriteKeepsExternal(w, l.(finalizers := l.finalizers - {FINALIZER}), f);
    WriteKeepsExternal(w, l.(finalizers := l.finalizers + {FINALIZER}), f);
    WriteKeepsExternal(w, l, f);
  }

  lemma CalledKeepsExternal(cfg: Config, w: World, o: Outcome)
    ensures SameExternal(w, OnCalled(cfg, w, o))
  {}

  /** Only Create, Delete and the environment change the external system, the
      clock or the number of the reconcile. */
  lemma ReplyKeepsExternal(cfg: Config, w: World, e: Event)
    requires e.Got? || e.Wrote? || e.Reported? || e.Called? || e.Proceed? || e.Observed? || e.ObserveFailed? || e.GaveUp?
             || e.Updated? || e.Edit? || e.Crash?
    ensures SameExternal(w, Next(cfg, w, e))
  {
    hide OnGot, OnWrote, OnCalled, Write, Commit;
    match e
    case Got(r) => GotKeepsExternal(cfg, w, r);
    case Wrote(f) => WroteKeepsExternal(cfg, w, f);
    case Called(o) => CalledKeepsExternal(cfg, w, o);
    case Edit(o) => CommitKeepsExternal(w, o, 0);
    case Reported(f, status) => if w.hist != [] { WriteKeepsExternal(w, Current(w).(status := status), f); }
    case _ =>
  }

  lemma CommitKeepsExternal(w: World, o: Object, writer: nat)
    ensures SameExternal(w, Commit(w, o, writer))
  {}

  // ---- what follows for every run ----

  lemma UnrecordedIsUnaccounted(w: World, k: nat)
    requires HistoryOk(w) && k < |w.creates| && Unrecorded(w, k)
    ensures Unaccounted(w, k)
  {}

  /** At most one creation ever has no outcome stored, and it is the last one. */
  lemma AtMostOneUnrecorded(cfg: Config, w: World, es: seq<Event>, j: nat, k: nat)
    requires !cfg.deterministic && Initial(w) && SafeRun(cfg, w, es)
    requires j < |Exec(cfg, w, es).creates| && k < |Exec(cfg, w, es).creates|
    requires Unrecorded(Exec(cfg, w, es), j) && Unrecorded(Exec(cfg, w, es), k)
    ensures j == k == |Exec(cfg, w, es).creates| - 1
  {
    hide Exec, SafeRun, HistoryOk, LocalOk, Unrecorded;
    InitialInv(w);
    RunKeepsInv(cfg, w, es);
    UnrecordedIsUnaccounted(Exec(cfg, w, es), j);
    UnrecordedIsUnaccounted(Exec(cfg, w, es), k);
  }

  /** While one has none, no step calls Create. */
  lemma NoCreateWhileUnrecorded(cfg: Config, w: World, es: seq<Event>, e: Event, k: nat)
    requires !cfg.deterministic && Initial(w) && SafeRun(cfg, w, es)
    requires k < |Exec(cfg, w, es).creates| && Unrecorded(Exec(cfg, w, es), k)
    ensures Next(cfg, Exec(cfg, w, es), e).creates == Exec(cfg, w, es).creates
  {
    hide Exec, SafeRun, Next, Unrecorded, HistoryOk;
    InitialInv(w);
    RunKeepsInv(cfg, w, es);
    UnrecordedIsUnaccounted(Exec(cfg, w, es), k);
    if Next(cfg, Exec(cfg, w, es), e).creates != Exec(cfg, w, es).creates {
      CreateNeedsCreating(cfg, Exec(cfg, w, es), e);
    }
  }

  lemma CreateNeedsCreating(cfg: Config, w: World, e: Event)
    requires Next(cfg, w, e).creates != w.creates
    ensures w.pc.Creating? && (e.Created? || e.CreateFailed?)
  {
    hide OnGot, OnWrote, OnCalled, OnProceed, OnReported, OnGaveUp, Commit;
    if !(e.Created? || e.CreateFailed? || e.Deleted? || e.Vanish? || e.Tick? || e.Start?) { ReplyKeepsExternal(cfg, w, e); }
  }

  /** What is stored when Create is called. */
  predicate WellPrepared(w: World) {
    && w.checked < w.rv < |w.hist|
    // the check was made against a version that was not incomplete ...
    && !CreateIncomplete(w.hist[w.checked].obj.notes)
    // ... from which only this reconcile's own writes lead to the one just written
    && (forall i :: w.checked < i <= w.rv ==> w.hist[i].writer == w.round)
    && var o := w.hist[w.rv].obj;
       && FINALIZER in o.finalizers
       && !o.deleted
       && o.notes == w.local.notes
       // its pending stamp is newer than the outcome stamps beside it
       && Seconds(o.notes.pending) > Latest(o.notes)
  }

  lemma CreateIsWellPrepared(cfg: Config, w: World, es: seq<Event>, e: Event)
    requires !cfg.deterministic && Initial(w) && SafeRun(cfg, w, es)
    requires Next(cfg, Exec(cfg, w, es), e).creates != Exec(cfg, w, es).creates
    ensures WellPrepared(Exec(cfg, w, es))
  {
    hide Exec, SafeRun, AccountsOk;
    InitialInv(w);
    RunKeepsInv(cfg, w, es);
    CreateNeedsCreating(cfg, Exec(cfg, w, es), e);
  }
}
