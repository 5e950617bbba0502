/** Deterministic external names: the reconciler goes on after a creation whose
outcome it does not know. If Create keeps the name the object has, that is safe
exactly where Observe never misses a resource that exists, or where the policies
never grant both Create and Delete. Nothing is assumed about the stamps. */
module ProtocolDeterministic {
  import opened Text
  import opened Meta
  import opened Policies
  import opened Protocol
  import opened ProtocolSafety
  import opened ProtocolLeak
  import opened ProtocolRound
  import opened ProtocolLimits

  /** Create gives the resource the name that is in the copy. */
  predicate Keeps(w: World, e: Event) {
    e.Created? && w.pc.Creating? ==> w.local.notes.name == Some(e.name)
  }

  predicate KeepingRun(cfg: Config, w: World, es: seq<Event>)
    decreases |es|
  {
    es != [] ==>
      && Polite(w, es[0]) && Faithful(cfg, w, es[0]) && Keeps(w, es[0])
      && KeepingRun(cfg, Next(cfg, w, es[0]), es[1..])
  }

  // ---- the invariant ----

  function NameOf(w: World): Option<string>
    requires w.hist != []
  {
    Current(w).notes.name
  }

  /** Whatever was created has the name the object has. */
  predicate OneName(w: World)
    requires w.hist != []
  {
    forall k :: 0 <= k < |w.creates| && w.creates[k].name.Some? ==>
      w.creates[k].name == NameOf(w) && NameOf(w) != Some("")
  }

  /** The copy has the policy of the version it is of. */
  predicate Copied(w: World) {
    !w.pc.Idle? && !w.pc.Getting? ==>
      && w.rv < |w.hist|
      && w.local.policies == w.hist[w.rv].obj.policies && w.local.deletionPolicy == w.hist[w.rv].obj.deletionPolicy
  }

  /** A copy of the current version has its name, and so has one that is created
      with or that an outcome is recorded in. */
  predicate CopyNamed(w: World)
    requires w.hist != []
  {
    && (Holding(w.pc) || w.pc.WritingPending? || w.pc.WritingCritical? || w.pc.RereadingCritical? ==>
          w.rv + 1 == |w.hist| ==> w.local.notes.name == NameOf(w))
    && (w.pc.Creating? || w.pc.Recording? ==> w.local.notes.name == NameOf(w))
    && (w.pc.WritingCritical? || w.pc.RereadingCritical? ==> w.captured.name == NameOf(w))
    && (w.pc.Initializing? ==> ExternalName(w.local.notes) == "")
  }

  predicate Present(w: World)
    requires w.hist != []
  {
    NameOf(w).Some? && NameOf(w).value in w.live
  }

  /** What a reconcile on the current version has not seen is not there; this holds
      where Observe misses nothing. */
  predicate SeenTruly(w: World)
    requires w.hist != []
  {
    (w.pc.Deciding? && !w.seen.present) || w.pc == Unpublishing(false) || w.pc == Finalizing(false) ==>
      w.rv + 1 == |w.hist| ==> !Present(w)
  }

  /** The deletion paths match the policy of the copy. */
  predicate PathsOk(cfg: Config, w: World) {
    && (w.pc == Unpublishing(true) || w.pc == Finalizing(true) ==> !Policy(cfg, w.local).ShouldDelete())
    && ((Cleared(w.pc) || w.pc.Initializing?) && w.local.deleted ==> Policy(cfg, w.local).ShouldDelete())
  }

  predicate Kept(cfg: Config, w: World) {
    w.hist != [] && OneName(w) && Copied(w) && CopyNamed(w) && (cfg.delay == 0 ==> SeenTruly(w)) && PathsOk(cfg, w)
  }

  // ---- steps ----

  lemma KeptLeaving(cfg: Config, w: World, v: World)
    requires w.hist != [] && OneName(w) && v.hist == w.hist && v.creates == w.creates
    requires v.pc.Idle? || v.pc.Getting?
             || ((v.pc.Reporting? || v.pc == Publishing(AfterCreate) || v.pc == Publishing(AfterUpdate)) && Copied(v))
    ensures Kept(cfg, v)
  {}

  /** The copy is of some version, and has the name of the current one if it is
      of that. */
  predicate Fresh(w: World) {
    && w.hist != [] && w.rv < |w.hist|
    && w.local.policies == w.hist[w.rv].obj.policies && w.local.deletionPolicy == w.hist[w.rv].obj.deletionPolicy
    && (w.rv + 1 == |w.hist| ==> w.local.notes.name == NameOf(w))
  }

  /** Where a reconcile goes on with nothing observed, or with the resource there
      or creatable. */
  predicate Onward(pc: Pc) {
    pc.Resolving? || pc.Connecting? || pc.Observing? || pc == Publishing(BeforeCreate) || pc.AddingFinalizer?
    || pc.Deleting? || pc.Stamping? || pc.LateInitializing? || pc.Updating? || pc.Reporting?
  }

  lemma KeptOnward(cfg: Config, w: World, v: World)
    requires Fresh(w) && OneName(w) && (w.local.deleted ==> Policy(cfg, w.local).ShouldDelete())
    requires Onward(v.pc) && v.hist == w.hist && v.creates == w.creates && v.rv == w.rv && v.local == w.local
    ensures Kept(cfg, v)
  {}

  lemma KeptAfterInit(cfg: Config, w: World)
    requires Fresh(w) && OneName(w) && (w.local.deleted ==> Policy(cfg, w.local).ShouldDelete())
    ensures Kept(cfg, AfterInit(cfg, w))
  {
    hide Kept, Fresh, OneName, Policy, CreateIncomplete;
    KeptOnward(cfg, w, AfterInit(cfg, w));
  }

  lemma KeptGet(cfg: Config, w: World, i: nat)
    requires w.hist != [] && OneName(w) && i < |w.hist|
    ensures Kept(cfg, AfterGet(cfg, w.(rv := i, local := w.hist[i].obj)))
  {
    hide IsPaused, AfterInit;
    var u := w.(rv := i, local := w.hist[i].obj);
    if AfterGet(cfg, u) == AfterInit(cfg, u) && !(u.local.deleted && !Policy(cfg, u.local).ShouldDelete()) {
      KeptAfterInit(cfg, u);
    }
  }

  lemma KeptReread(cfg: Config, w: World, i: nat)
    requires Kept(cfg, w) && w.pc.RereadingCritical? && i < |w.hist|
    ensures var o := w.hist[i].obj;
            var merged := o.(notes := AddAnnotations(o.notes, w.captured));
            Kept(cfg, w.(pc := WritingCritical(w.pc.success), rv := i, local := merged))
  {
    hide Policy;
  }

  lemma KeptGot(cfg: Config, w: World, r: Read)
    requires Kept(cfg, w)
    ensures Kept(cfg, OnGot(cfg, w, r))
  {
    hide AfterGet, AddAnnotations, Policy;
    if w.pc.Getting? && r.Read? && r.version < |w.hist| {
      KeptGet(cfg, w, r.version);
    } else if w.pc.RereadingCritical? && r.Read? && r.version < |w.hist| {
      KeptReread(cfg, w, r.version);
    }
  }

  lemma KeptDecide(cfg: Config, w: World)
    requires Kept(cfg, w) && w.pc.Deciding?
    ensures Kept(cfg, Decide(cfg, w))
  {
    hide SucceededDuring;
  }

  lemma KeptProceed(cfg: Config, w: World)
    requires Kept(cfg, w)
    ensures Kept(cfg, OnProceed(cfg, w))
  {
    hide Decide, Policy;
    if w.pc.Deciding? { KeptDecide(cfg, w); }
  }

  lemma KeptAfterFinalizer(cfg: Config, w: World)
    requires Fresh(w) && OneName(w) && (w.local.deleted ==> Policy(cfg, w.local).ShouldDelete())
    ensures Kept(cfg, AfterFinalizer(cfg, w))
  {
    hide Kept, Fresh, OneName, Policy;
    KeptOnward(cfg, w, AfterFinalizer(cfg, w));
  }

  lemma KeptUnpublished(cfg: Config, w: World, o: Outcome)
    requires Kept(cfg, w) && w.pc.Unpublishing?
    ensures Kept(cfg, OnCalled(cfg, w, o))
  {
    hide Policy, AfterPublish;
  }

  lemma KeptCalled(cfg: Config, w: World, o: Outcome)
    requires Kept(cfg, w)
    ensures Kept(cfg, OnCalled(cfg, w, o))
  {
    hide AfterFinalizer, Policy, OneName;
    var v := OnCalled(cfg, w, o);
    if w.pc.Unpublishing? {
      KeptUnpublished(cfg, w, o);
    } else if w.pc == Publishing(BeforeCreate) && o == Succeeds && FINALIZER in w.local.finalizers {
      KeptAfterFinalizer(cfg, w);
    } else if Onward(v.pc) && Cleared(w.pc) {
      KeptOnward(cfg, w, v);
    } else if v != w {
      KeptLeaving(cfg, w, v);
    }
  }

  lemma KeptObserved(cfg: Config, w: World, v: World)
    requires NowNotBefore(w) && Kept(cfg, w) && w.pc.Observing? && Truthful(cfg, w, v.seen.present)
    requires v.local == w.local.(spec := v.local.spec)
    requires v == w.(pc := Deciding, seen := v.seen, seenAt := w.now, local := v.local)
    ensures Kept(cfg, v)
  {
    hide Policy;
    PolicySame(cfg, w.local, v.local);
  }

  lemma PolicySame(cfg: Config, o: Object, q: Object)
    requires o.policies == q.policies && o.deletionPolicy == q.deletionPolicy
    ensures Policy(cfg, o) == Policy(cfg, q)
  {}

  /** Creations are in the past. */
  predicate NowNotBefore(w: World) {
    forall k :: 0 <= k < |w.creates| ==> w.creates[k].at <= w.now
  }

  lemma KeptCreate(cfg: Config, w: World, e: Event)
    requires Kept(cfg, w) && w.pc.Creating? && (e.Created? || e.CreateFailed?) && Faithful(cfg, w, e) && Keeps(w, e)
    ensures Kept(cfg, Next(cfg, w, e))
  {
    hide OnGot, OnWrote, OnCalled, OnProceed, OnReported, Commit, Policy;
  }

  lemma KeptCall(cfg: Config, w: World, e: Event)
    requires NowNotBefore(w) && Kept(cfg, w) && Faithful(cfg, w, e) && Keeps(w, e)
    requires e.Observed? || e.ObserveFailed? || e.Created? || e.CreateFailed? || e.Deleted? || e.Updated? || e.GaveUp?
    ensures Kept(cfg, Next(cfg, w, e))
  {
    hide OnGot, OnWrote, OnCalled, OnProceed, OnReported, Commit, Policy, Kept, Truthful, Keeps;
    var v := Next(cfg, w, e);
    if v == w {
    } else if e.Observed? {
      KeptObserved(cfg, w, v);
    } else if e.Created? || e.CreateFailed? {
      KeptCreate(cfg, w, e);
    } else {
      KeptParts(cfg, w);
      KeptLeaving(cfg, w, v);
    }
  }

  lemma KeptParts(cfg: Config, w: World)
    requires Kept(cfg, w)
    ensures w.hist != [] && OneName(w) && Copied(w)
  {}

  // ---- writes ----

  /** What a write does to the parts the invariant is about. */
  lemma WriteKept(w: World, o: Object, f: Fault)
    requires w.hist != []
    ensures var a := Write(w, o, f);
            && a.w.hist != [] && |w.hist| <= |a.w.hist| && (forall i :: 0 <= i < |w.hist| ==> a.w.hist[i] == w.hist[i])
            && (a.w.hist == w.hist || (w.rv + 1 == |w.hist| && Current(a.w) == o && |a.w.hist| > |w.hist|))
            && (if a.result == Landed then
                  a.w.local == o == Current(a.w) && a.w.rv + 1 == |a.w.hist| && w.rv + 1 == |w.hist|
                else a.w.local == w.local && a.w.rv == w.rv)
            && a.w.creates == w.creates && a.w.live == w.live
            && a.w.pc == w.pc && a.w.captured == w.captured && a.w.seen == w.seen
  {}

  /** The write of a copy with the name of the current version, or the first name. */
  lemma WriteNamed(w: World, o: Object, f: Fault)
    requires w.hist != [] && OneName(w) && Copied(w) && !w.pc.Idle? && !w.pc.Getting?
    requires o.policies == w.local.policies && o.deletionPolicy == w.local.deletionPolicy
    requires w.rv + 1 == |w.hist| ==> o.notes.name == NameOf(w) || (NameOf(w).Some? ==> NameOf(w).value == "")
    ensures var a := Write(w, o, f); a.w.hist != [] && OneName(a.w) && Copied(a.w)
  {
    hide Write;
    WriteKept(w, o, f);
  }

  lemma KeptWrote(cfg: Config, w: World, f: Fault)
    requires Kept(cfg, w)
    ensures Kept(cfg, OnWrote(cfg, w, f))
  {
    hide Write, AfterInit, AfterFinalizer, AfterLateInit, Policy, OneName, Kept;
    match w.pc
    case Initializing => KeptInitialize(cfg, w, f);
    case Finalizing(_) => KeptFinalize(cfg, w, f);
    case AddingFinalizer => KeptAddFinalizer(cfg, w, f);
    case WritingPending => KeptPending(cfg, w, f);
    case WritingCritical(_) => KeptCritical(cfg, w, f);
    case LateInitializing => KeptLateInit(cfg, w, f);
    case _ => NothingWritten(cfg, w, f);
  }

  lemma KeptFailure(cfg: Config, w: World, conflict: bool)
    requires w.hist != [] && OneName(w) && Copied(w) && !w.pc.Idle? && !w.pc.Getting?
    ensures Kept(cfg, OnFailure(w, conflict))
  {
    KeptLeaving(cfg, w, OnFailure(w, conflict));
  }

  lemma KeptInitialize(cfg: Config, w: World, f: Fault)
    requires Kept(cfg, w) && w.pc.Initializing?
    ensures Kept(cfg, OnWrote(cfg, w, f))
  {
    hide Write, AfterInit, OneName;
    var o := Named(cfg, w.local);
    var a := Write(w, o, f);
    WriteNamed(w, o, f);
    WriteKept(w, o, f);
    PolicySame(cfg, w.local, o);
    if a.result == Landed { KeptAfterInit(cfg, a.w); } else { KeptFailure(cfg, a.w, a.result == Conflicted); }
  }

  lemma KeptFinalize(cfg: Config, w: World, f: Fault)
    requires Kept(cfg, w) && w.pc.Finalizing?
    ensures Kept(cfg, OnWrote(cfg, w, f))
  {
    hide Write, Policy;
    var o := w.local.(finalizers := w.local.finalizers - {FINALIZER});
    WriteNamed(w, o, f);
    WriteKept(w, o, f);
    KeptLeaving(cfg, Write(w, o, f).w, OnWrote(cfg, w, f));
  }

  lemma KeptAddFinalizer(cfg: Config, w: World, f: Fault)
    requires Kept(cfg, w) && w.pc.AddingFinalizer?
    ensures Kept(cfg, OnWrote(cfg, w, f))
  {
    hide Write, Policy, AfterFinalizer;
    var o := w.local.(finalizers := w.local.finalizers + {FINALIZER});
    var a := Write(w, o, f);
    WriteNamed(w, o, f);
    WriteKept(w, o, f);
    PolicySame(cfg, w.local, o);
    if a.result == Landed { KeptAfterFinalizer(cfg, a.w); } else { KeptFailure(cfg, a.w, a.result == Conflicted); }
  }

  lemma KeptPending(cfg: Config, w: World, f: Fault)
    requires Kept(cfg, w) && w.pc.WritingPending?
    ensures Kept(cfg, OnWrote(cfg, w, f))
  {
    hide Write, Policy;
    var a := Write(w, w.local, f);
    WriteNamed(w, w.local, f);
    WriteKept(w, w.local, f);
    if a.result != Landed { KeptFailure(cfg, a.w, a.result == Conflicted); }
  }

  lemma KeptCritical(cfg: Config, w: World, f: Fault)
    requires Kept(cfg, w) && w.pc.WritingCritical?
    ensures Kept(cfg, OnWrote(cfg, w, f))
  {
    hide Write, Policy;
    WriteNamed(w, w.local, f);
    WriteKept(w, w.local, f);
  }

  lemma KeptLateInit(cfg: Config, w: World, f: Fault)
    requires Kept(cfg, w) && w.pc.LateInitializing?
    ensures Kept(cfg, OnWrote(cfg, w, f))
  {
    hide Write;
    WriteNamed(w, w.local, f);
    WriteKept(w, w.local, f);
  }

  lemma KeptReported(cfg: Config, w: World, f: Fault, status: int)
    requires Kept(cfg, w) && w.pc.Reporting?
    ensures Kept(cfg, OnReported(w, w.pc.res, f, status))
  {
    hide Write, Policy;
    var o := Current(w).(status := status);
    WriteKept(w, o, f);
  }

  lemma KeptEdit(cfg: Config, w: World, o: Object)
    requires Kept(cfg, w) && Polite(w, Edit(o))
    ensures Kept(cfg, Commit(w, o, 0))
  {
    hide Policy;
  }

  lemma KeptElse(cfg: Config, w: World, e: Event)
    requires Kept(cfg, w) && (e.Tick? || e.Vanish? || e.Start? || e.Crash?)
    ensures Kept(cfg, Next(cfg, w, e))
  {
    hide OnGot, OnWrote, OnCalled, OnProceed, OnReported, Commit, Policy;
  }

  lemma StepKeepsName(cfg: Config, w: World, e: Event)
    requires NowNotBefore(w) && Kept(cfg, w) && Polite(w, e) && Faithful(cfg, w, e) && Keeps(w, e)
    ensures Kept(cfg, Next(cfg, w, e))
  {
    hide Kept, NowNotBefore, Faithful, Keeps, OnGot, OnWrote, OnCalled, OnProceed, OnReported, Commit, OnGaveUp,
      OnCreated, OnCreateFailed, OnDeleted, OnUpdated;
    match e
    case Got(r) => KeptGot(cfg, w, r);
    case Called(o) => KeptCalled(cfg, w, o);
    case Edit(o) => KeptEdit(cfg, w, o);
    case Wrote(f) => KeptWrote(cfg, w, f);
    case Reported(f, status) => if w.pc.Reporting? { KeptReported(cfg, w, f, status); }
    case Proceed => KeptProceed(cfg, w);
    case Tick(_) => KeptElse(cfg, w, e);
    case Vanish(_) => KeptElse(cfg, w, e);
    case Start => KeptElse(cfg, w, e);
    case Crash => KeptElse(cfg, w, e);
    case _ => KeptCall(cfg, w, e);
  }

  lemma StepNotBefore(cfg: Config, w: World, e: Event)
    requires NowNotBefore(w)
    ensures NowNotBefore(Next(cfg, w, e))
  {
    hide OnGot, OnWrote, OnCalled, OnReported, Commit, Write, OnProceed;
    match e
    case Tick(_) =>
    case Created(_, _) =>
    case CreateFailed =>
    case Deleted(_) =>
    case Vanish(_) =>
    case Start =>
    case _ => ReplyKeepsExternal(cfg, w, e);
  }

  lemma {:induction false} RunKeepsName(cfg: Config, w: World, es: seq<Event>)
    requires NowNotBefore(w) && Kept(cfg, w) && KeepingRun(cfg, w, es)
    ensures Kept(cfg, Exec(cfg, w, es))
    decreases |es|
  {
    hide Kept, NowNotBefore, Next, Polite, Faithful, Keeps;
    if es != [] {
      StepKeepsName(cfg, w, es[0]);
      StepNotBefore(cfg, w, es[0]);
      RunKeepsName(cfg, Next(cfg, w, es[0]), es[1..]);
    }
  }

  lemma InitialKept(cfg: Config, w: World)
    requires Initial(w)
    ensures Kept(cfg, w) && NowNotBefore(w)
  {}

  // ---- what follows for every run ----

  lemma {:induction false} KeepingIsUntimely(cfg: Config, w: World, es: seq<Event>)
    requires KeepingRun(cfg, w, es)
    ensures UntimelyRun(cfg, w, es)
    decreases |es|
  {
    hide Next, Polite, Faithful, Keeps;
    if es != [] { KeepingIsUntimely(cfg, Next(cfg, w, es[0]), es[1..]); }
  }

  lemma {:induction false} KeepingPrefix(cfg: Config, w: World, es: seq<Event>, e: Event)
    requires KeepingRun(cfg, w, es + [e])
    ensures KeepingRun(cfg, w, es) && Polite(Exec(cfg, w, es), e)
    decreases |es|
  {
    hide Next, Polite, Faithful, Keeps;
    if es == [] {
      assert es + [e] == [e];
    } else {
      assert (es + [e])[0] == es[0] && (es + [e])[1..] == es[1..] + [e];
      KeepingPrefix(cfg, Next(cfg, w, es[0]), es[1..], e);
    }
  }

  /** All resources created in a run have one name, so that at most one exists at
      any time, whatever Observe misses and the stamps say. */
  lemma OneNameForAll(cfg: Config, w: World, es: seq<Event>, j: nat, k: nat)
    requires Initial(w) && KeepingRun(cfg, w, es)
    requires j < |Exec(cfg, w, es).creates| && k < |Exec(cfg, w, es).creates|
    requires Exec(cfg, w, es).creates[j].name.Some? && Exec(cfg, w, es).creates[k].name.Some?
    ensures Exec(cfg, w, es).creates[j].name == Exec(cfg, w, es).creates[k].name
    ensures Live(Exec(cfg, w, es), j) && Live(Exec(cfg, w, es), k) ==> j == k
  {
    hide Exec, KeepingRun, Initial;
    InitialKept(cfg, w);
    RunKeepsName(cfg, w, es);
  }

  /** A step that removes the finalizer of an object to be deleted does so on the
      path of a deletion the policy grants. */
  lemma RemovalIsDeletion(cfg: Config, u: World, e: Event)
    requires Kept(cfg, u) && RoundInv(cfg, u) && Polite(u, e) && FinalizerRemoved(u, Next(cfg, u, e))
    requires Policy(cfg, Current(u)).ShouldDelete()
    ensures CanDelete(cfg) && e.Wrote? && u.pc == Finalizing(false) && u.rv + 1 == |u.hist|
  {
    hide Next, DeletedForGood, Polite, CanDelete, ReportOk, OneName, CopyNamed, SeenTruly;
    RemovalIsFinalizing(cfg, u, e);
    PolicySame(cfg, u.local, Current(u));
    ActiveIsSupported(cfg, u.local);
  }

  lemma AbsentIsClean(cfg: Config, u: World, e: Event)
    requires cfg.delay == 0 && Kept(cfg, u) && u.pc == Finalizing(false) && u.rv + 1 == |u.hist| && e.Wrote?
    ensures NoneLive(Next(cfg, u, e))
  {
    hide Next, Copied, CopyNamed, PathsOk;
    ReplyKeepsExternal(cfg, u, e);
  }

  /** No run leaves a resource behind if Observe misses nothing or the policies do
      not grant both Create and Delete. */
  lemma NoLeakWhereKept(cfg: Config, w: World, es: seq<Event>, e: Event)
    requires cfg.delay == 0 || !CanCreate(cfg) || !CanDelete(cfg)
    requires Initial(w) && KeepingRun(cfg, w, es + [e])
    requires var u := Exec(cfg, w, es);
             FinalizerRemoved(u, Next(cfg, u, e)) && Policy(cfg, Current(u)).ShouldDelete()
    ensures NoneLive(Next(cfg, Exec(cfg, w, es), e))
  {
    hide Exec, Next, KeepingRun, Kept, RoundInv, CanCreate, CanDelete, Polite, PoliteRun, UntimelyRun, Initial;
    var u := Exec(cfg, w, es);
    KeepingPrefix(cfg, w, es, e);
    InitialKept(cfg, w);
    RunKeepsName(cfg, w, es);
    KeepingIsUntimely(cfg, w, es);
    UntimelyIsPolite(cfg, w, es);
    InitialRound(cfg, w);
    RunKeepsRound(cfg, w, es);
    RemovalIsDeletion(cfg, u, e);
    if cfg.delay == 0 {
      AbsentIsClean(cfg, u, e);
    } else {
      InitialHasNone(w);
      NothingIsCreated(cfg, w, es);
      ReplyKeepsExternal(cfg, u, e);
    }
  }

  // ---- a run that leaks ----

  ghost predicate KeepsTo(cfg: Config, w: World, es: seq<Event>, v: World) {
    Exec(cfg, w, es) == v && KeepingRun(cfg, w, es)
  }

  lemma {:induction false} KeepOn(cfg: Config, w: World, es: seq<Event>, u: World, e: Event)
    returns (more: seq<Event>, v: World)
    requires KeepsTo(cfg, w, es, u) && Polite(u, e) && Faithful(cfg, u, e) && Keeps(u, e)
    ensures more == es + [e] && v == Next(cfg, u, e) && KeepsTo(cfg, w, more, v)
    decreases |es|
  {
    hide Next, Polite, Faithful, Keeps;
    more, v := es + [e], Next(cfg, u, e);
    if es == [] {
      assert more == [e] && more[1..] == [];
      assert Exec(cfg, v, []) == v && KeepingRun(cfg, v, []);
    } else {
      assert more[0] == es[0] && more[1..] == es[1..] + [e];
      var more', v' := KeepOn(cfg, Next(cfg, w, es[0]), es[1..], u, e);
    }
  }

  /** A run that creates nothing keeps all names. */
  lemma {:induction false} NothingToKeep(cfg: Config, w: World, es: seq<Event>)
    requires UntimelyRun(cfg, w, es) && Exec(cfg, w, es).creates == []
    ensures w.creates == [] && KeepingRun(cfg, w, es)
    decreases |es|
  {
    hide Next, Polite, Faithful;
    if es != [] {
      NothingToKeep(cfg, Next(cfg, w, es[0]), es[1..]);
      CreatedIsCounted(cfg, w, es[0]);
    }
  }

  lemma NothingKept(cfg: Config, w: World, es: seq<Event>, v: World)
    requires Leads(cfg, w, es, true, v) && v.creates == []
    ensures KeepsTo(cfg, w, es, v)
  {
    hide Next, FaithfulRun;
    NothingToKeep(cfg, w, es);
  }

  lemma CreatedIsCounted(cfg: Config, w: World, e: Event)
    requires Next(cfg, w, e).creates == []
    ensures w.creates == [] && Keeps(w, e)
  {
    hide OnGot, OnWrote, OnCalled, OnReported, Commit, Write, OnProceed;
    if !(e.Created? || e.CreateFailed? || e.Deleted? || e.Vanish? || e.Tick? || e.Start?) {
      ReplyKeepsExternal(cfg, w, e);
    }
  }

  /** Deleted, perhaps under another policy, with nothing stored about the creation. */
  function Abandoned(p: set<Action>, q: set<Action>): Object {
    Pending(p).(deleted := true, policies := q)
  }

  /** The only creation of the run, under the name the object has. */
  const LOST := Creation(1, 2, Some("x"), LateInSecond())

  /** The resource is created, the process crashes before it can say so, and the
      object is deleted. */
  lemma LostAndDeleted(cfg: Config, p: set<Action>, q: set<Action>) returns (es: seq<Event>, v: World)
    requires Creator(cfg, p)
    ensures KeepsTo(cfg, NewWorld(p), es, v)
    ensures v.pc == Idle && |v.hist| == 4 && Current(v) == Abandoned(p, q) && !v.gone
    ensures v.creates == [LOST] && v.live == {"x"} && v.now == LateInSecond()
  {
    hide KeepsTo, Leads, Creator, OnGot, OnWrote, OnCalled, OnReported, OnProceed;
    var w := NewWorld(p);
    es, v := LeakAnnounced(cfg, p);
    NothingKept(cfg, w, es, v);
    es, v := KeepOn(cfg, w, es, v, Created("x", 0));
    assert v.creates == [] + [LOST];
    es, v := KeepOn(cfg, w, es, v, Crash);
    es, v := KeepOn(cfg, w, es, v, Edit(Abandoned(p, q)));
  }

  /** The next reconcile goes on although the creation is incomplete. */
  lemma LostObserves(cfg: Config, p: set<Action>, q: set<Action>) returns (es: seq<Event>, v: World)
    requires cfg.deterministic && Creator(cfg, p) && Deleter(cfg, q)
    ensures KeepsTo(cfg, NewWorld(p), es, v)
    ensures v.pc == Observing && |v.hist| == 4 && v.rv == 3 && v.local == Current(v) == Abandoned(p, q) && !v.gone
    ensures v.creates == [LOST] && v.live == {"x"} && v.now == LateInSecond()
  {
    hide KeepsTo, Creator, OnWrote, OnReported, OnProceed, Commit;
    var w := NewWorld(p);
    es, v := LostAndDeleted(cfg, p, q);
    es, v := KeepOn(cfg, w, es, v, Start);
    es, v := KeepOn(cfg, w, es, v, Got(Read(3)));
    assert v.pc == Connecting;
    es, v := KeepOn(cfg, w, es, v, Called(Succeeds));
  }

  /** Observe misses the new resource. Without a success stamp there is no grace
      period, and the object is finalized. */
  lemma LostFinalizes(cfg: Config, p: set<Action>, q: set<Action>) returns (es: seq<Event>, v: World)
    requires cfg.deterministic && cfg.delay > 0 && Creator(cfg, p) && Deleter(cfg, q)
    ensures KeepsTo(cfg, NewWorld(p), es, v)
    ensures v.pc == Finalizing(false) && |v.hist| == 4 && v.rv == 3 && !v.gone
    ensures v.local == Current(v) == Abandoned(p, q)
    ensures v.creates == [LOST] && v.live == {"x"}
  {
    hide KeepsTo, Creator, OnWrote, OnReported, OnGot, Commit;
    var w := NewWorld(p);
    es, v := LostObserves(cfg, p, q);
    assert v.creates[0].name == v.local.notes.name;
    es, v := KeepOn(cfg, w, es, v, Observed(ABSENT, 0));
    es, v := KeepOn(cfg, w, es, v, Proceed);
    assert v.pc == Unpublishing(false);
    es, v := KeepOn(cfg, w, es, v, Called(Succeeds));
  }

  lemma MissingLeaks(cfg: Config, p: set<Action>, q: set<Action>) returns (es: seq<Event>)
    requires cfg.deterministic && cfg.delay > 0 && Creator(cfg, p) && Deleter(cfg, q)
    ensures Initial(NewWorld(p)) && KeepingRun(cfg, NewWorld(p), es + [Wrote(NoFault)])
    ensures var u := Exec(cfg, NewWorld(p), es);
            var v := Next(cfg, u, Wrote(NoFault));
            FinalizerRemoved(u, v) && Policy(cfg, Current(u)).ShouldDelete() && !NoneLive(v)
  {
    hide Exec, KeepingRun;
    var u: World;
    es, u := LostFinalizes(cfg, p, q);
    var more, v := KeepOn(cfg, NewWorld(p), es, u, Wrote(NoFault));
    assert Live(v, 0);
  }

  // ---- exactly when ----

  /** Never does a run in which Create keeps the name finalize an object that is to
      be deleted while a resource it created exists. */
  ghost predicate KeepingLeakFree(cfg: Config) {
    forall w: World, es: seq<Event>, e: Event {:trigger KeepingRun(cfg, w, es + [e])} ::
      && Initial(w) && KeepingRun(cfg, w, es + [e])
      && FinalizerRemoved(Exec(cfg, w, es), Next(cfg, Exec(cfg, w, es), e))
      && Policy(cfg, Current(Exec(cfg, w, es))).ShouldDelete()
      ==> NoneLive(Next(cfg, Exec(cfg, w, es), e))
  }

  /** With deterministic names no grace period helps: the reconciler is free of
      leaks exactly if Observe misses nothing, or the policies it supports never
      grant both Create and Delete. */
  lemma KeepingLeakFreeExactly(cfg: Config)
    requires cfg.deterministic
    ensures KeepingLeakFree(cfg) <==> cfg.delay == 0 || !CanCreate(cfg) || !CanDelete(cfg)
  {
    hide Exec, KeepingRun, Next, Initial, NoneLive, CanCreate, CanDelete;
    if cfg.delay == 0 || !CanCreate(cfg) || !CanDelete(cfg) {
      forall w: World, es: seq<Event>, e: Event |
        && Initial(w) && KeepingRun(cfg, w, es + [e])
        && FinalizerRemoved(Exec(cfg, w, es), Next(cfg, Exec(cfg, w, es), e))
        && Policy(cfg, Current(Exec(cfg, w, es))).ShouldDelete()
        ensures NoneLive(Next(cfg, Exec(cfg, w, es), e))
      {
        NoLeakWhereKept(cfg, w, es, e);
      }
    } else {
      var p := SomeCreator(cfg);
      var q := SomeDeleter(cfg);
      var es := MissingLeaks(cfg, p, q);
    }
  }
}
