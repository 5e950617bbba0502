/** What the history of the object looks like in every run: which versions get
stored, that a success stamp always comes with the name of the resource it
dates, and that the pending stamps only move forward. */
module ProtocolHistory {
  import opened Text
  import opened Meta
  import opened Protocol
  import opened ProtocolSafety
  import opened ProtocolLeak
  import opened ProtocolStage

  /** The reasons there are for storing `n` on top of `current`. */
  predicate MayFollow(w: World, current: Notes, n: Notes) {
    // nothing of ours changes
    || SameMarks(n, current)
    // a nameless object gets a name
    || (ExternalName(current) == "" && n == current.(name := n.name))
    // a creation is announced
    || (!CreateIncomplete(current) && SameMarks(n, current.(pending := n.pending)) && Seconds(n.pending) > Latest(n))
    // the outcome of the last creation is recorded: its name and date, ...
    || (&& |w.creates| > 0 && n.pending == current.pending && n.failed == current.failed
        && w.creates[|w.creates| - 1].name.Some? && Records(n, w.creates[|w.creates| - 1])
        && w.creates[|w.creates| - 1].stamp <= n.succeeded.value && Latest(current) <= Latest(n))
    // ... or that it failed
    || (&& |w.creates| > 0 && n.pending == current.pending && n.name == current.name && n.succeeded == current.succeeded
        && w.creates[|w.creates| - 1].name.None? && Latest(current) <= Latest(n))
  }

  /** A step stores at most one version, for one of those reasons. */
  predicate StoresWell(w: World, v: World)
    requires w.hist != []
  {
    || v.hist == w.hist
    || (&& |v.hist| == |w.hist| + 1 && v.hist[..|w.hist|] == w.hist
        && MayFollow(w, Current(w).notes, Current(v).notes))
  }

  lemma CommitStores(w: World, o: Object, writer: nat)
    requires w.hist != [] && MayFollow(w, Current(w).notes, o.notes)
    ensures StoresWell(w, Commit(w, o, writer))
  {
    hide MayFollow;
  }

  lemma WriteStores(w: World, o: Object, f: Fault)
    requires w.hist != [] && (w.rv + 1 == |w.hist| ==> MayFollow(w, Current(w).notes, o.notes))
    ensures StoresWell(w, Write(w, o, f).w)
  {
    hide MayFollow, Commit;
    if w.rv + 1 == |w.hist| { CommitStores(w, o, w.round); }
  }

  lemma CriticalMayFollow(w: World)
    requires Inv1(w) && w.pc.WritingCritical? && w.rv + 1 == |w.hist|
    ensures MayFollow(w, Current(w).notes, w.local.notes)
  {
    hide HistoryOk, AccountsOk, AllAccounted, Latest;
    LatestOfSame(w.local.notes, w.captured);
  }

  lemma WroteStores(cfg: Config, w: World, f: Fault)
    requires Inv1(w)
    ensures w.hist != [] && StoresWell(w, OnWrote(cfg, w, f))
  {
    hide HistoryOk, AccountsOk, StageOk, Write, Commit, MayFollow, AfterInit, AfterFinalizer, AfterLateInit,
      CapturedOk, CreatingOk, StoresWell;
    Inv1Parts(w);
    var l, v := w.local, OnWrote(cfg, w, f);
    match w.pc
    case Initializing =>
      if w.rv + 1 == |w.hist| { NamedMayFollow(cfg, w); }
      WriteStores(w, Named(cfg, l), f);
      AfterInitKeeps(cfg, Write(w, Named(cfg, l), f).w);
      StoresSame(w, Write(w, Named(cfg, l), f).w, v);
    case Finalizing(_) =>
      if w.rv + 1 == |w.hist| { SameMayFollow(w, l.notes); }
      WriteStores(w, l.(finalizers := l.finalizers - {FINALIZER}), f);
      StoresSame(w, Write(w, l.(finalizers := l.finalizers - {FINALIZER}), f).w, v);
    case AddingFinalizer =>
      if w.rv + 1 == |w.hist| { SameMayFollow(w, l.notes); }
      WriteStores(w, l.(finalizers := l.finalizers + {FINALIZER}), f);
      AfterFinalizerKeeps(cfg, Write(w, l.(finalizers := l.finalizers + {FINALIZER}), f).w);
      StoresSame(w, Write(w, l.(finalizers := l.finalizers + {FINALIZER}), f).w, v);
    case WritingPending =>
      if w.rv + 1 == |w.hist| { PendingMayFollow(w); }
      WriteStores(w, l, f);
      StoresSame(w, Write(w, l, f).w, v);
    case WritingCritical(_) =>
      if w.rv + 1 == |w.hist| { CriticalMayFollow(w); }
      WriteStores(w, l, f);
      StoresSame(w, Write(w, l, f).w, v);
    case LateInitializing =>
      if w.rv + 1 == |w.hist| { SameMayFollow(w, l.notes); }
      WriteStores(w, l, f);
      LateInitKeepsHistory(cfg, Write(w, l, f).w);
      StoresSame(w, Write(w, l, f).w, v);
    case _ =>
      NothingWritten(cfg, w, f);
      StoresNothing(w);
  }

  lemma StoresNothing(w: World)
    requires w.hist != []
    ensures StoresWell(w, w)
  {}

  lemma StoresSame(w: World, u: World, v: World)
    requires w.hist != [] && StoresWell(w, u) && v.hist == u.hist
    ensures StoresWell(w, v)
  {
    hide MayFollow;
  }

  lemma SameMayFollow(w: World, n: Notes)
    requires w.hist != [] && n == Current(w).notes
    ensures MayFollow(w, Current(w).notes, n)
  {}

  lemma NamedMayFollow(cfg: Config, w: World)
    requires w.hist != [] && w.local.notes == Current(w).notes && ExternalName(w.local.notes) == ""
    ensures MayFollow(w, Current(w).notes, Named(cfg, w.local).notes)
  {}

  lemma PendingMayFollow(w: World)
    requires w.hist != [] && PendingOk(w) && w.rv + 1 == |w.hist|
    ensures MayFollow(w, Current(w).notes, w.local.notes)
  {}

  lemma ReportedStores(w: World, f: Fault, status: int)
    requires w.hist != [] && w.pc.Reporting?
    ensures StoresWell(w, OnReported(w, w.pc.res, f, status))
  {
    hide Write, MayFollow;
    var o := Current(w).(status := status);
    SameMayFollow(w, o.notes);
    WriteStores(w, o, f);
  }

  /** Every step of every run stores only such versions. */
  lemma StepStoresWell(cfg: Config, w: World, e: Event)
    requires Inv1(w) && Polite(w, e)
    ensures w.hist != [] && StoresWell(w, Next(cfg, w, e))
  {
    hide Inv, Staged, HistoryOk, AccountsOk, LocalOk, StageOk, Commit, MayFollow,
      OnGot, OnWrote, OnCalled, OnProceed, OnReported, OnGaveUp, OnCreated, OnCreateFailed,
      OnDeleted, OnUpdated;
    Inv1Parts(w);
    match e
    case Got(r) => GotKeepsHistory(cfg, w, r);
    case Called(o) => CalledKeepsHistory(cfg, w, o);
    case Edit(o) =>
      EditMayFollow(w, o);
      CommitStores(w, o, 0);
    case Wrote(f) => WroteStores(cfg, w, f);
    case Reported(f, status) => if w.pc.Reporting? { ReportedStores(w, f, status); }
    case Proceed => ProceedKeeps(cfg, w);
    case _ => CallKeepsHistory(cfg, w, e);
  }

  lemma EditMayFollow(w: World, o: Object)
    requires w.hist != [] && Polite(w, Edit(o))
    ensures MayFollow(w, Current(w).notes, o.notes)
  {}

  // ---- names and dates ----

  /** Version `i` carries the name some Create assigned before it was written,
      and its success stamp was taken after that Create. */
  predicate DatedBy(w: World, i: nat, k: nat)
    requires i < |w.hist| && k < |w.creates|
  {
    && w.creates[k].name.Some? && Records(w.hist[i].obj.notes, w.creates[k])
    && w.creates[k].version < i && w.creates[k].stamp <= Seconds(w.hist[i].obj.notes.succeeded)
  }

  ghost predicate Dated(w: World, i: nat)
    requires i < |w.hist|
  {
    exists k :: 0 <= k < |w.creates| && DatedBy(w, i, k)
  }

  ghost predicate NamedAndDated(w: World) {
    forall i :: 0 <= i < |w.hist| && w.hist[i].obj.notes.succeeded.Some? ==> Dated(w, i)
  }

  predicate PendingForward(w: World) {
    forall i, j :: 0 <= i < j < |w.hist| ==> Seconds(w.hist[i].obj.notes.pending) <= Seconds(w.hist[j].obj.notes.pending)
  }

  predicate OutcomesForward(w: World) {
    forall i, j :: 0 <= i < j < |w.hist| ==> Latest(w.hist[i].obj.notes) <= Latest(w.hist[j].obj.notes)
  }

  predicate NonEmptyNames(w: World) {
    forall k :: 0 <= k < |w.creates| ==> w.creates[k].name != Some("")
  }

  lemma StepNamed(w: World, v: World)
    requires HistoryOk(w) && NonEmptyNames(w) && NamedAndDated(w) && StoresWell(w, v)
    requires |w.creates| <= |v.creates| && v.creates[..|w.creates|] == w.creates
    ensures NamedAndDated(v)
  {
    hide CreateIncomplete, Latest;
    forall i | 0 <= i < |v.hist| && v.hist[i].obj.notes.succeeded.Some?
      ensures Dated(v, i)
    {
      var last := |w.hist| - 1;
      if i <= last {
        assert Dated(w, i);
        assert v.hist[i] == w.hist[i];
        var k :| 0 <= k < |w.creates| && DatedBy(w, i, k);
        assert v.creates[k] == w.creates[k];
        assert DatedBy(v, i, k);
      } else {
        NewestNamed(w, v);
      }
    }
  }

  lemma NewestNamed(w: World, v: World)
    requires HistoryOk(w) && NonEmptyNames(w) && NamedAndDated(w)
    requires |v.hist| == |w.hist| + 1 && MayFollow(w, Current(w).notes, Current(v).notes)
    requires |w.creates| <= |v.creates| && v.creates[..|w.creates|] == w.creates
    requires Current(v).notes.succeeded.Some?
    ensures Dated(v, |v.hist| - 1)
  {
    hide Latest, CreateIncomplete;
    var last := |w.hist| - 1;
    var n, c := Current(v).notes, Current(w).notes;
    if c.succeeded.Some? && n.succeeded == c.succeeded {
      assert Dated(w, last);
      var k :| 0 <= k < |w.creates| && DatedBy(w, last, k);
      assert v.creates[k] == w.creates[k];
      assert w.creates[k].name != Some("");
      if n.name == c.name {
        assert DatedBy(v, |v.hist| - 1, k);
      } else {
        LastDates(w, v);
      }
    } else {
      LastDates(w, v);
    }
  }

  lemma LastDates(w: World, v: World)
    requires |w.creates| > 0 && |v.hist| > 0 && |w.creates| <= |v.creates| && v.creates[..|w.creates|] == w.creates
    requires w.creates[|w.creates| - 1].name.Some? && Records(Current(v).notes, w.creates[|w.creates| - 1])
    requires w.creates[|w.creates| - 1].stamp <= Seconds(Current(v).notes.succeeded)
    requires w.creates[|w.creates| - 1].version + 1 < |v.hist|
    ensures Dated(v, |v.hist| - 1)
  {
    var k := |w.creates| - 1;
    assert v.creates[k] == w.creates[k];
    assert DatedBy(v, |v.hist| - 1, k);
  }

  lemma StepForward(w: World, v: World)
    requires w.hist != [] && PendingForward(w) && StoresWell(w, v)
    ensures PendingForward(v)
  {
    hide Records;
    if v.hist != w.hist {
      assert Seconds(Current(w).notes.pending) <= Seconds(Current(v).notes.pending);
      assert forall i :: 0 <= i < |w.hist| ==> v.hist[i] == w.hist[i];
    }
  }

  lemma StepOutcomesForward(w: World, v: World)
    requires w.hist != [] && OutcomesForward(w) && StoresWell(w, v)
    ensures OutcomesForward(v)
  {
    hide Records, CreateIncomplete;
    if v.hist != w.hist {
      assert Latest(Current(w).notes) <= Latest(Current(v).notes);
      assert forall i :: 0 <= i < |w.hist| ==> v.hist[i] == w.hist[i];
    }
  }

  lemma {:induction false} RunForward(cfg: Config, w: World, es: seq<Event>)
    requires !cfg.deterministic && Inv1(w) && PendingForward(w) && OutcomesForward(w) && SafeRun(cfg, w, es)
    ensures var v := Exec(cfg, w, es); Inv1(v) && PendingForward(v) && OutcomesForward(v)
    decreases |es|
  {
    hide Inv1, Next, PendingForward, OutcomesForward, StoresWell;
    if es != [] {
      StepKeepsInv1(cfg, w, es[0]);
      StepStoresWell(cfg, w, es[0]);
      StepForward(w, Next(cfg, w, es[0]));
      StepOutcomesForward(w, Next(cfg, w, es[0]));
      RunForward(cfg, Next(cfg, w, es[0]), es[1..]);
    }
  }

  /** Create never assigns the empty name. */
  predicate NamingRun(cfg: Config, w: World, es: seq<Event>)
    decreases |es|
  {
    es != [] ==> (es[0].Created? && w.pc.Creating? ==> es[0].name != "") && NamingRun(cfg, Next(cfg, w, es[0]), es[1..])
  }

  lemma {:induction false} RunNamed(cfg: Config, w: World, es: seq<Event>)
    requires !cfg.deterministic && SafeRun(cfg, w, es) && NamingRun(cfg, w, es)
    requires Inv1(w) && NamedAndDated(w) && NonEmptyNames(w)
    ensures NamedAndDated(Exec(cfg, w, es))
    decreases |es|
  {
    hide Inv1, Next, NamedAndDated, StoresWell, Inv, Staged, HistoryOk, AccountsOk, LocalOk, RangeOk;
    if es != [] {
      var v := Next(cfg, w, es[0]);
      StepKeepsInv1(cfg, w, es[0]);
      StepStoresWell(cfg, w, es[0]);
      CreatesGrow(cfg, w, es[0]);
      Inv1Parts(w);
      StepNamed(w, v);
      StepNames(cfg, w, es[0]);
      RunNamed(cfg, v, es[1..]);
    }
  }

  lemma StepNames(cfg: Config, w: World, e: Event)
    requires NonEmptyNames(w) && (e.Created? && w.pc.Creating? ==> e.name != "")
    ensures NonEmptyNames(Next(cfg, w, e))
  {
    hide Next;
    if Next(cfg, w, e).creates != w.creates {
      CreateNeedsCreating(cfg, w, e);
      CreateAppends(cfg, w, e);
    }
  }

  lemma CreatesGrow(cfg: Config, w: World, e: Event)
    ensures var v := Next(cfg, w, e); |w.creates| <= |v.creates| && v.creates[..|w.creates|] == w.creates
  {
    hide Next;
    var v := Next(cfg, w, e);
    if v.creates == w.creates {
    } else {
      CreateNeedsCreating(cfg, w, e);
      CreateAppends(cfg, w, e);
    }
  }

  lemma CreateAppends(cfg: Config, w: World, e: Event)
    requires w.pc.Creating? && (e.Created? || e.CreateFailed?)
    ensures var v := Next(cfg, w, e);
            && |v.creates| == |w.creates| + 1 && v.creates[..|w.creates|] == w.creates
            && v.creates == w.creates + [v.creates[|w.creates|]]
            && v.creates[|w.creates|].name == if e.Created? then Some(e.name) else None
  {
    hide OnGot, OnWrote, OnCalled, OnProceed, OnReported, Commit;
  }

  // ---- what follows for every run ----

  /** A success stamp is only ever stored with the name that Create assigned. */
  lemma SuccessComesWithName(cfg: Config, w: World, es: seq<Event>, i: nat)
    requires !cfg.deterministic && Initial(w) && SafeRun(cfg, w, es) && NamingRun(cfg, w, es)
    requires i < |Exec(cfg, w, es).hist| && Exec(cfg, w, es).hist[i].obj.notes.succeeded.Some?
    ensures Dated(Exec(cfg, w, es), i)
  {
    hide Exec, SafeRun, Inv1, Dated;
    InitialInv1(w);
    RunNamed(cfg, w, es);
  }

  /** When Create is called its pending stamp is newer than every pending stamp
      before it, and than every outcome stamp up to it. */
  lemma PendingIsNewest(cfg: Config, w: World, es: seq<Event>, e: Event, i: nat)
    requires !cfg.deterministic && Initial(w) && SafeRun(cfg, w, es)
    requires Next(cfg, Exec(cfg, w, es), e).creates != Exec(cfg, w, es).creates
    requires i <= Exec(cfg, w, es).rv
    ensures var u := Exec(cfg, w, es);
            && u.rv < |u.hist|
            && (i < u.rv ==> Seconds(u.hist[i].obj.notes.pending) < Seconds(u.hist[u.rv].obj.notes.pending))
            && Latest(u.hist[i].obj.notes) < Seconds(u.hist[u.rv].obj.notes.pending)
  {
    hide Exec, SafeRun, StageOk, AccountsOk, Next, Latest;
    InitialInv1(w);
    RunForward(cfg, w, es);
    CreateNeedsCreating(cfg, Exec(cfg, w, es), e);
  }
}
