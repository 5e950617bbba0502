/** Why the assumptions are needed: runs that lose track of a creation when a
pending stamp falls into the second of an outcome stamp, and runs that leak a
resource when the grace period is too short. Together with the safety theorems
this says exactly when the reconciler is safe. */
module ProtocolLimits {
  import opened Text
  import opened Meta
  import opened Policies
  import opened Protocol
  import opened ProtocolSafety
  import opened ProtocolLeak
  import opened ProtocolRound

  // ---- putting runs together ----

  /** A run that need not be timely. */
  predicate UntimelyRun(cfg: Config, w: World, es: seq<Event>)
    decreases |es|
  {
    es != [] ==> Polite(w, es[0]) && Faithful(cfg, w, es[0]) && UntimelyRun(cfg, Next(cfg, w, es[0]), es[1..])
  }

  /** One more event at the end of a run. */
  lemma {:induction false} Do(cfg: Config, w: World, es: seq<Event>, e: Event) returns (more: seq<Event>, v: World)
    requires Polite(Exec(cfg, w, es), e) && Faithful(cfg, Exec(cfg, w, es), e)
    ensures more == es + [e] && v == Exec(cfg, w, more) == Next(cfg, Exec(cfg, w, es), e)
    ensures UntimelyRun(cfg, w, es) ==> UntimelyRun(cfg, w, more)
    ensures FaithfulRun(cfg, w, es) && Timely(Exec(cfg, w, es), e) ==> FaithfulRun(cfg, w, more)
    decreases |es|
  {
    hide Next, Polite, Timely, Faithful;
    more := es + [e];
    v := Exec(cfg, w, more);
    if es == [] {
      assert more == [e] && more[1..] == [];
      assert Exec(cfg, Next(cfg, w, e), []) == Next(cfg, w, e);
    } else {
      assert more[0] == es[0] && more[1..] == es[1..] + [e];
      var more', v' := Do(cfg, Next(cfg, w, es[0]), es[1..], e);
    }
  }

  /** A run, where it leads, and that it is made in a faithful environment. */
  ghost predicate Leads(cfg: Config, w: World, es: seq<Event>, timely: bool, v: World) {
    Exec(cfg, w, es) == v && UntimelyRun(cfg, w, es) && (timely ==> FaithfulRun(cfg, w, es))
  }

  lemma LeadsNowhere(cfg: Config, w: World)
    ensures Leads(cfg, w, [], true, w)
  {}

  lemma Go(cfg: Config, w: World, es: seq<Event>, timely: bool, u: World, e: Event) returns (more: seq<Event>, v: World)
    requires Leads(cfg, w, es, timely, u) && Polite(u, e) && Faithful(cfg, u, e) && (timely ==> Timely(u, e))
    ensures v == Next(cfg, u, e) && Leads(cfg, w, more, timely, v)
  {
    hide Next, Polite, Timely, Faithful, UntimelyRun, FaithfulRun, Exec;
    more, v := Do(cfg, w, es, e);
  }

  // ---- a reconcile that goes on to create ----

  const ABSENT := Observation(false, false, false)

  /** An idle state in which a reconcile will find the resource absent, past its
      grace period, and may create it. */
  predicate Ripe(cfg: Config, w: World) {
    && w.hist != [] && !w.gone && w.pc.Idle?
    && var o := Current(w);
       var p := Policy(cfg, o);
       && !IsPaused(o.notes) && !p.Paused() && p.Valid() && p.ShouldCreate() && !p.ShouldOnlyObserve()
       && !o.deleted
       && (cfg.nameAsExternalName ==> ExternalName(o.notes) != "")
       && !CreateIncomplete(o.notes)
       && !SucceededDuring(o.notes, w.now, cfg.grace)
       && (o.notes.name.Some? ==> o.notes.name.value !in w.live)
  }

  function AtObserve(w: World): World
    requires w.hist != []
  {
    w.(pc := Observing, round := w.round + 1, calls := [], rv := |w.hist| - 1, local := Current(w), checked := |w.hist| - 1)
  }

  lemma ReachResolving(cfg: Config, w0: World, es0: seq<Event>, t: bool, w: World) returns (es: seq<Event>)
    requires Leads(cfg, w0, es0, t, w) && Ripe(cfg, w)
    ensures Leads(cfg, w0, es, t, AtObserve(w).(pc := Resolving))
  {
    hide Leads, OnWrote, OnReported, OnProceed, OnCalled, OnGaveUp, Commit, SucceededDuring, CreateIncomplete, IsPaused;
    var v: World;
    es, v := Go(cfg, w0, es0, t, w, Start);
    es, v := Go(cfg, w0, es, t, v, Got(Read(|w.hist| - 1)));
    assert v == AtObserve(w).(pc := Resolving);
  }

  lemma ReachObserve(cfg: Config, w0: World, es0: seq<Event>, t: bool, w: World) returns (es: seq<Event>)
    requires Leads(cfg, w0, es0, t, w) && Ripe(cfg, w)
    ensures Leads(cfg, w0, es, t, AtObserve(w))
  {
    hide Leads, Ripe, OnGot, OnWrote, OnReported, OnProceed, OnGaveUp, AfterPublish, AfterUnpublish, Commit;
    RipeFacts(cfg, w);
    var v: World := AtObserve(w).(pc := Resolving);
    es := ReachResolving(cfg, w0, es0, t, w);
    es, v := Go(cfg, w0, es, t, v, Called(Succeeds));
    es, v := Go(cfg, w0, es, t, v, Called(Succeeds));
    assert v == AtObserve(w);
  }

  /** The object with a pending stamp of now. */
  function Announced(w: World): Object
    requires w.hist != []
  {
    var o := Current(w);
    o.(notes := o.notes.(pending := Some(Stamp(w.now))))
  }

  function AtStamping(w: World): World
    requires w.hist != []
  {
    AtObserve(w).(pc := Stamping, seen := ABSENT, seenAt := w.now)
  }

  lemma ReachStamping(cfg: Config, w0: World, es0: seq<Event>, t: bool, w: World) returns (es: seq<Event>)
    requires Leads(cfg, w0, es0, t, w) && Ripe(cfg, w) && FINALIZER in Current(w).finalizers
    ensures Leads(cfg, w0, es, t, AtStamping(w))
  {
    hide Leads, OnWrote, OnReported, OnGot, OnGaveUp, Commit, Record, IsPaused, CreateIncomplete;
    var v: World := AtObserve(w);
    es := ReachObserve(cfg, w0, es0, t, w);
    es, v := Go(cfg, w0, es, t, v, Observed(ABSENT, Current(w).spec));
    es, v := Go(cfg, w0, es, t, v, Proceed);
    assert v.pc == Publishing(BeforeCreate);
    es, v := Go(cfg, w0, es, t, v, Called(Succeeds));
    assert v == AtStamping(w);
  }

  /** About to call Create, with a pending stamp of now stored. */
  function AtCreate(w: World): World
    requires w.hist != []
  {
    var c := Commit(AtStamping(w).(pc := WritingPending, local := Announced(w)), Announced(w), w.round + 1);
    c.(pc := Creating, rv := if |c.hist| > 0 then |c.hist| - 1 else 0)
  }

  lemma ReachCreate(cfg: Config, w0: World, es0: seq<Event>, t: bool, w: World) returns (es: seq<Event>)
    requires Leads(cfg, w0, es0, t, w) && Ripe(cfg, w) && FINALIZER in Current(w).finalizers
    requires t ==> Stamp(w.now) > Latest(Current(w).notes)
    ensures Leads(cfg, w0, es, t, AtCreate(w))
  {
    hide Leads, OnReported, OnGot, OnCalled, OnGaveUp, Record, Decide, Ripe, OnWrote, Commit;
    RipeFacts(cfg, w);
    var v: World := AtStamping(w);
    es := ReachStamping(cfg, w0, es0, t, w);
    es, v := Go(cfg, w0, es, t, v, Proceed);
    PendingIsWritten(cfg, w);
    es, v := Go(cfg, w0, es, t, v, Wrote(NoFault));
  }

  lemma PendingIsWritten(cfg: Config, w: World)
    requires w.hist != [] && !w.gone
    ensures OnWrote(cfg, AtStamping(w).(pc := WritingPending, local := Announced(w)), NoFault) == AtCreate(w)
  {}

  // ---- losing track of a creation ----

  /** A name other than the one that is stored. */
  predicate OtherName(w: World, n: string) {
    n != "" && (w.hist != [] ==> Current(w).notes.name != Some(n))
  }

  /** Create succeeds and the process crashes before it can say so. */
  function AfterLoss(w: World, n: string): World
    requires w.hist != []
  {
    OnCreated(AtCreate(w), n, Current(w).spec).(pc := Idle)
  }

  lemma ReachLoss(cfg: Config, w0: World, es0: seq<Event>, w: World, n: string) returns (es: seq<Event>)
    requires Leads(cfg, w0, es0, false, w) && Ripe(cfg, w) && FINALIZER in Current(w).finalizers && OtherName(w, n)
    ensures Leads(cfg, w0, es, false, AfterLoss(w, n))
  {
    hide Leads;
    es := ReachCreate(cfg, w0, es0, false, w);
    var v := AtCreate(w);
    es, v := Go(cfg, w0, es, false, v, Created(n, Current(w).spec));
    es, v := Go(cfg, w0, es, false, v, Crash);
    assert v == AfterLoss(w, n);
  }

  /** After a loss the next reconcile will create again exactly if the pending
      stamp is not later than the last outcome. */
  lemma RipeAfterLoss(cfg: Config, w: World, n: string)
    requires Ripe(cfg, w) && OtherName(w, n)
    ensures Ripe(cfg, AfterLoss(w, n)) <==> Stamp(w.now) <= Latest(Current(w).notes)
    ensures AfterLoss(w, n).hist != [] && Current(AfterLoss(w, n)) == Announced(w)
  {}

  /** From a ripe state in the second of the last outcome, two creations in a row
      can be lost: neither has an outcome stored. */
  lemma TwoLost(cfg: Config, w0: World, es0: seq<Event>, w: World, n: string, m: string) returns (es: seq<Event>, v: World)
    requires Leads(cfg, w0, es0, false, w) && Ripe(cfg, w) && FINALIZER in Current(w).finalizers
    requires Stamp(w.now) <= Latest(Current(w).notes)
    requires OtherName(w, n) && OtherName(w, m)
    ensures Leads(cfg, w0, es, false, v)
    ensures |v.creates| == |w.creates| + 2 && Unrecorded(v, |w.creates|) && Unrecorded(v, |w.creates| + 1)
  {
    hide Leads, Ripe;
    RipeFacts(cfg, w);
    var u := AfterLoss(w, n);
    es := ReachLoss(cfg, w0, es0, w, n);
    RipeAfterLoss(cfg, w, n);
    v := AfterLoss(u, m);
    es := ReachLoss(cfg, w0, es, u, m);
    LossIsUnrecorded(w, n);
    LossIsUnrecorded(u, m);
    StillUnrecorded(u, m, |w.creates|);
  }

  lemma RipeFacts(cfg: Config, w: World)
    requires Ripe(cfg, w)
    ensures w.hist != [] && !w.gone && !Current(w).deleted
  {}

  lemma LossIsUnrecorded(w: World, n: string)
    requires w.hist != [] && !w.gone
    ensures |AfterLoss(w, n).creates| == |w.creates| + 1 && Unrecorded(AfterLoss(w, n), |w.creates|)
    ensures !AfterLoss(w, n).gone || Current(w).deleted
  {}

  lemma StillUnrecorded(w: World, n: string, k: nat)
    requires w.hist != [] && !w.gone && k < |w.creates| && Unrecorded(w, k)
    ensures k < |AfterLoss(w, n).creates| && Unrecorded(AfterLoss(w, n), k)
  {}

  // ---- from any ripe state ----

  /** The outcome of a failed Create is stamped and about to be stored. */
  lemma ReachRecording(cfg: Config, w0: World, es0: seq<Event>, w: World) returns (es: seq<Event>, v: World)
    requires Leads(cfg, w0, es0, false, w) && Ripe(cfg, w) && FINALIZER in Current(w).finalizers
    ensures Leads(cfg, w0, es, false, v)
    ensures v == Record(OnCreateFailed(AtCreate(w)), false)
  {
    hide Leads, Ripe;
    RipeFacts(cfg, w);
    es := ReachCreate(cfg, w0, es0, false, w);
    v := AtCreate(w);
    es, v := Go(cfg, w0, es, false, v, CreateFailed);
    es, v := Go(cfg, w0, es, false, v, Proceed);
  }

  lemma RecordingFacts(w: World)
    requires w.hist != [] && !w.gone && !Current(w).deleted
    ensures var v := Record(OnCreateFailed(AtCreate(w)), false);
            && v.pc == WritingCritical(false) && v.local == Failed(w) && v.hist != [] && !v.gone && v.rv + 1 == |v.hist|
            && v.now == w.now && v.live == w.live
            && |v.creates| == |w.creates| + 1 && v.creates[..|w.creates|] == w.creates && v.creates[|w.creates|].name.None?
  {}

  /** A creation fails and that is stored, all within one second. */
  lemma ReachFailure(cfg: Config, w0: World, es0: seq<Event>, w: World) returns (es: seq<Event>, v: World)
    requires Leads(cfg, w0, es0, false, w) && Ripe(cfg, w) && FINALIZER in Current(w).finalizers
    ensures Leads(cfg, w0, es, false, v) && FailureStored(w, v)
  {
    hide Leads, Ripe, Record, OnCreateFailed, AtCreate, Failed;
    RipeFacts(cfg, w);
    FailedIsNotDeleted(w);
    es, v := ReachRecording(cfg, w0, es0, w);
    RecordingFacts(w);
    es, v := Go(cfg, w0, es, false, v, Wrote(NoFault));
    assert v.pc == Reporting(REQUEUE) && Current(v) == Failed(w);
    es, v := Go(cfg, w0, es, false, v, Reported(NoFault, Failed(w).status));
  }

  lemma FailedIsNotDeleted(w: World)
    requires w.hist != []
    ensures Failed(w).deleted == Current(w).deleted
  {}

  function Failed(w: World): Object
    requires w.hist != []
  {
    var o := Announced(w);
    o.(notes := o.notes.(failed := Some(Stamp(w.now))))
  }

  /** Idle again, with the failure and nothing else to show for it. */
  predicate FailureStored(w: World, v: World) {
    && w.hist != [] && v.hist != [] && !v.gone && v.pc.Idle? && Current(v) == Failed(w)
    && v.now == w.now && v.live == w.live
    && |v.creates| == |w.creates| + 1 && v.creates[..|w.creates|] == w.creates && v.creates[|w.creates|].name.None?
  }

  lemma RipeAfterFailure(cfg: Config, w: World, v: World)
    requires Ripe(cfg, w) && FailureStored(w, v)
    ensures Ripe(cfg, v) && Stamp(v.now) <= Latest(Current(v).notes)
  {}

  lemma OtherAfterFailure(w: World, v: World, n: string)
    requires FailureStored(w, v) && OtherName(w, n)
    ensures OtherName(v, n)
  {}

  /** Without the assumption on stamps no ripe state is safe: a failure and two
      crashes within one second lose two creations, in an otherwise faithful
      environment. */
  lemma UnsafeWithoutTimeliness(cfg: Config, w: World, n: string, m: string) returns (es: seq<Event>, j: nat, k: nat)
    requires Ripe(cfg, w) && FINALIZER in Current(w).finalizers
    requires OtherName(w, n) && OtherName(w, m)
    ensures UntimelyRun(cfg, w, es)
    ensures j < k < |Exec(cfg, w, es).creates|
    ensures Unrecorded(Exec(cfg, w, es), j) && Unrecorded(Exec(cfg, w, es), k)
  {
    hide Exec, Ripe, OtherName;
    LeadsNowhere(cfg, w);
    var u: World, v: World;
    LeadsAnyway(cfg, w);
    es, u := ReachFailure(cfg, w, [], w);
    RipeAfterFailure(cfg, w, u);
    OtherAfterFailure(w, u, n);
    OtherAfterFailure(w, u, m);
    es, v := TwoLost(cfg, w, es, u, n, m);
    j, k := |u.creates|, |u.creates| + 1;
  }

  lemma LeadsAnyway(cfg: Config, w: World)
    ensures Leads(cfg, w, [], false, w)
  {}

  // ---- leaking a resource ----

  const NEW_NAME := "y"

  function NewObject(p: set<Action>): Object {
    Object(Notes(Some("x"), None, None, None, map[]), {}, false, p, DeleteExternal, 0, 0)
  }

  /** The last tick of second 1. */
  function LateInSecond(): nat {
    2 * SECOND - 1
  }

  function NewWorld(p: set<Action>): World {
    World([Version(NewObject(p), 0)], false, {}, [], LateInSecond(), 0, Idle, 0, NewObject(p), 0, ABSENT, 0,
          NewObject(p).notes, [], QUIET)
  }

  /** Some policy an object may have grants Create. */
  predicate CanCreate(cfg: Config) {
    !cfg.enabled || exists i :: 0 <= i < |cfg.supported| && (Create in cfg.supported[i] || All in cfg.supported[i])
  }

  predicate CanDelete(cfg: Config) {
    !cfg.enabled || exists i :: 0 <= i < |cfg.supported| && (Delete in cfg.supported[i] || All in cfg.supported[i])
  }

  /** Under the policy `p` the object is active and may be created. */
  predicate Creator(cfg: Config, p: set<Action>) {
    var r := Policy(cfg, NewObject(p));
    r.Valid() && !r.Paused() && r.ShouldCreate() && !r.ShouldOnlyObserve()
  }

  predicate Deleter(cfg: Config, p: set<Action>) {
    var r := Policy(cfg, NewObject(p));
    r.Valid() && !r.Paused() && r.ShouldDelete()
  }

  lemma SomeCreator(cfg: Config) returns (p: set<Action>)
    requires CanCreate(cfg)
    ensures Creator(cfg, p)
  {
    if !cfg.enabled {
      p := {All};
    } else {
      var i :| 0 <= i < |cfg.supported| && (Create in cfg.supported[i] || All in cfg.supported[i]);
      p := cfg.supported[i];
    }
  }

  lemma SomeDeleter(cfg: Config) returns (p: set<Action>)
    requires CanDelete(cfg)
    ensures Deleter(cfg, p)
  {
    if !cfg.enabled {
      p := {All};
    } else {
      var i :| 0 <= i < |cfg.supported| && (Delete in cfg.supported[i] || All in cfg.supported[i]);
      p := cfg.supported[i];
      if All in p && Delete !in p && cfg.legacy { assert p != {}; }
    }
  }

  lemma NewIsRipe(cfg: Config, p: set<Action>)
    requires Creator(cfg, p)
    ensures Initial(NewWorld(p)) && Ripe(cfg, NewWorld(p)) && OtherName(NewWorld(p), NEW_NAME)
  {}

  function WithFinalizer(p: set<Action>): Object {
    NewObject(p).(finalizers := {FINALIZER})
  }

  function Pending(p: set<Action>): Object {
    WithFinalizer(p).(notes := NewObject(p).notes.(pending := Some(1)))
  }

  function Recorded(p: set<Action>): Object {
    Pending(p).(notes := Pending(p).notes.(succeeded := Some(1), name := Some(NEW_NAME)))
  }

  /** Deleted, perhaps under another policy. */
  function Doomed(p: set<Action>, q: set<Action>): Object {
    Recorded(p).(deleted := true, policies := q)
  }

  /** A first reconcile is about to add the finalizer. */
  lemma LeakObserved(cfg: Config, p: set<Action>) returns (es: seq<Event>, v: World)
    requires Creator(cfg, p)
    ensures Leads(cfg, NewWorld(p), es, true, v)
    ensures v == AtObserve(NewWorld(p)).(pc := AddingFinalizer, seen := ABSENT, seenAt := LateInSecond())
  {
    hide Leads, OnGot, OnReported, OnGaveUp, OnWrote, Record, Ripe, Commit;
    var w := NewWorld(p);
    NewIsRipe(cfg, p);
    LeadsNowhere(cfg, w);
    es := ReachObserve(cfg, w, [], true, w);
    v := AtObserve(w);
    es, v := Go(cfg, w, es, true, v, Observed(ABSENT, 0));
    es, v := Go(cfg, w, es, true, v, Proceed);
    assert v.pc == Publishing(BeforeCreate);
    es, v := Go(cfg, w, es, true, v, Called(Succeeds));
  }

  /** It gets as far as adding the finalizer and stamping. */
  lemma LeakStart(cfg: Config, p: set<Action>) returns (es: seq<Event>, v: World)
    requires Creator(cfg, p)
    ensures Leads(cfg, NewWorld(p), es, true, v)
    ensures v.pc == Stamping && v.hist == [Version(NewObject(p), 0), Version(WithFinalizer(p), 1)]
    ensures v.rv == 1 && v.local == WithFinalizer(p) && v.now == LateInSecond()
    ensures v.live == {} && v.creates == [] && v.round == 1 && !v.gone
  {
    hide Leads, OnGot, OnReported, OnGaveUp, OnCalled, OnProceed;
    var w := NewWorld(p);
    es, v := LeakObserved(cfg, p);
    assert NewObject(p).finalizers + {FINALIZER} == {FINALIZER};
    es, v := Go(cfg, w, es, true, v, Wrote(NoFault));
    assert v.hist == w.hist + [Version(WithFinalizer(p), 1)];
  }

  /** It announces a creation at the end of the second. */
  lemma LeakAnnounced(cfg: Config, p: set<Action>) returns (es: seq<Event>, v: World)
    requires Creator(cfg, p)
    ensures Leads(cfg, NewWorld(p), es, true, v)
    ensures v.pc == Creating && v.local == Pending(p) && v.rv == 2 && v.round == 1 && !v.gone
    ensures v.hist == [Version(NewObject(p), 0), Version(WithFinalizer(p), 1), Version(Pending(p), 1)]
    ensures v.creates == [] && v.live == {} && v.now == LateInSecond()
  {
    hide Leads, Creator, OnGot, OnCalled, OnReported, Decide, Record, Policy;
    var w := NewWorld(p);
    es, v := LeakStart(cfg, p);
    es, v := Go(cfg, w, es, true, v, Proceed);
    assert v.pc == WritingPending && v.local == Pending(p);
    ghost var before := v.hist;
    es, v := Go(cfg, w, es, true, v, Wrote(NoFault));
    assert v.hist == before + [Version(Pending(p), 1)];
  }

  /** It creates the resource and stamps that. */
  lemma LeakCreates(cfg: Config, p: set<Action>) returns (es: seq<Event>, v: World)
    requires Creator(cfg, p)
    ensures Leads(cfg, NewWorld(p), es, true, v)
    ensures v.pc == WritingCritical(true) && v.local == Recorded(p) && v.rv == 2 && v.round == 1 && !v.gone
    ensures v.hist == [Version(NewObject(p), 0), Version(WithFinalizer(p), 1), Version(Pending(p), 1)]
    ensures v.creates == [Creation(1, 2, Some(NEW_NAME), LateInSecond())] && v.live == {NEW_NAME} && v.now == LateInSecond()
  {
    hide Leads, Creator, OnGot, OnCalled, OnReported, OnWrote, Decide, Policy;
    var w := NewWorld(p);
    es, v := LeakAnnounced(cfg, p);
    es, v := Go(cfg, w, es, true, v, Created(NEW_NAME, 0));
    assert v.pc == Recording(true) && v.creates == [] + [Creation(1, 2, Some(NEW_NAME), LateInSecond())];
    es, v := Go(cfg, w, es, true, v, Proceed);
  }

  lemma LeakStored(cfg: Config, p: set<Action>) returns (es: seq<Event>, v: World)
    requires Creator(cfg, p)
    ensures Leads(cfg, NewWorld(p), es, true, v)
    ensures v.pc == Publishing(AfterCreate) && |v.hist| == 4 && Current(v) == Recorded(p) && !v.gone && v.rv == 3
    ensures v.creates == [Creation(1, 2, Some(NEW_NAME), LateInSecond())] && v.live == {NEW_NAME} && v.now == LateInSecond()
  {
    hide Leads, Creator, OnGot, OnProceed;
    es, v := LeakCreates(cfg, p);
    assert Recorded(p) != Pending(p);
    es, v := Go(cfg, NewWorld(p), es, true, v, Wrote(NoFault));
  }

  /** The reconcile ends. */
  lemma LeakEnds(cfg: Config, p: set<Action>) returns (es: seq<Event>, v: World)
    requires Creator(cfg, p)
    ensures Leads(cfg, NewWorld(p), es, true, v)
    ensures v.pc == Idle && |v.hist| == 4 && Current(v) == Recorded(p) && !v.gone
    ensures v.creates == [Creation(1, 2, Some(NEW_NAME), LateInSecond())] && v.live == {NEW_NAME} && v.now == LateInSecond()
  {
    hide Leads, Creator, OnGot, OnProceed, OnWrote;
    es, v := LeakStored(cfg, p);
    es, v := Go(cfg, NewWorld(p), es, true, v, Called(Succeeds));
    assert v.pc == Reporting(REQUEUE) && Recorded(p).(status := 0) == Recorded(p);
    es, v := Go(cfg, NewWorld(p), es, true, v, Reported(NoFault, 0));
  }

  /** The object is deleted; time passes, just less than it takes for Observe to
      notice the resource. */
  lemma LeakDeleted(cfg: Config, p: set<Action>, q: set<Action>) returns (es: seq<Event>, v: World)
    requires Creator(cfg, p) && cfg.delay > 0
    ensures Leads(cfg, NewWorld(p), es, true, v)
    ensures v.pc == Idle && |v.hist| == 5 && Current(v) == Doomed(p, q) && !v.gone
    ensures v.creates == [Creation(1, 2, Some(NEW_NAME), LateInSecond())] && v.live == {NEW_NAME}
    ensures v.now == LateInSecond() + cfg.delay - 1
  {
    hide Leads, Creator;
    var w := NewWorld(p);
    es, v := LeakEnds(cfg, p);
    es, v := Go(cfg, w, es, true, v, Edit(Doomed(p, q)));
    assert |v.hist| == 5;
    es, v := Go(cfg, w, es, true, v, Tick(cfg.delay - 1));
  }

  /** A second reconcile is about to observe. */
  lemma LeakObserves(cfg: Config, p: set<Action>, q: set<Action>) returns (es: seq<Event>, v: World)
    requires Creator(cfg, p) && Deleter(cfg, q) && cfg.delay > 0
    ensures Leads(cfg, NewWorld(p), es, true, v)
    ensures v.pc == Observing && |v.hist| == 5 && v.rv == 4 && v.local == Current(v) == Doomed(p, q) && !v.gone
    ensures v.creates == [Creation(1, 2, Some(NEW_NAME), LateInSecond())] && v.live == {NEW_NAME}
    ensures v.now == LateInSecond() + cfg.delay - 1
  {
    hide Leads, Creator, OnWrote, OnReported, OnProceed;
    var w := NewWorld(p);
    es, v := LeakDeleted(cfg, p, q);
    es, v := Go(cfg, w, es, true, v, Start);
    es, v := Go(cfg, w, es, true, v, Got(Read(4)));
    assert v.pc == Connecting && v.local == Doomed(p, q);
    es, v := Go(cfg, w, es, true, v, Called(Succeeds));
  }

  /** It is told the resource is absent, and by the time it looks at the clock the
      grace period is over. */
  lemma LeakFinalizes(cfg: Config, p: set<Action>, q: set<Action>) returns (es: seq<Event>, v: World)
    requires Creator(cfg, p) && Deleter(cfg, q) && !LongGrace(cfg)
    ensures Leads(cfg, NewWorld(p), es, true, v)
    ensures v.pc == Finalizing(false) && |v.hist| == 5 && v.rv == 4 && v.local == Current(v) == Doomed(p, q) && !v.gone
    ensures v.creates == [Creation(1, 2, Some(NEW_NAME), LateInSecond())] && v.live == {NEW_NAME}
  {
    hide Leads, Creator, Deleter;
    es, v := LeakObserves(cfg, p, q);
    es, v := LeakMissed(cfg, p, q, NewWorld(p), es, v);
  }

  lemma LeakMissed(cfg: Config, p: set<Action>, q: set<Action>, w: World, es0: seq<Event>, u: World) returns (es: seq<Event>, v: World)
    requires Deleter(cfg, q) && !LongGrace(cfg) && cfg.delay > 0 && Leads(cfg, w, es0, true, u)
    requires u.pc == Observing && u.local == Doomed(p, q)
    requires u.creates == [Creation(1, 2, Some(NEW_NAME), LateInSecond())] && u.now == LateInSecond() + cfg.delay - 1
    ensures Leads(cfg, w, es, true, v) && v.pc == Finalizing(false)
    ensures v == u.(pc := v.pc, seen := v.seen, seenAt := v.seenAt, now := v.now)
  {
    hide Leads, LongGrace, SucceededDuring, Creator, OnWrote, OnReported, OnGot, OnGaveUp, Commit, Record, Decide;
    MissedOnce(cfg, p, q, u);
    es, v := Go(cfg, w, es0, true, u, Observed(ABSENT, 0));
    es, v := Go(cfg, w, es, true, v, Tick(cfg.lag));
    DecidesToFinalize(cfg, p, q, v);
    es, v := Go(cfg, w, es, true, v, Proceed);
    es, v := Go(cfg, w, es, true, v, Called(Succeeds));
  }

  lemma MissedOnce(cfg: Config, p: set<Action>, q: set<Action>, u: World)
    requires u.local == Doomed(p, q) && cfg.delay > 0
    requires u.creates == [Creation(1, 2, Some(NEW_NAME), LateInSecond())] && u.now == LateInSecond() + cfg.delay - 1
    ensures Truthful(cfg, u, false)
  {
    assert u.creates[0].name == u.local.notes.name;
  }

  lemma DecidesToFinalize(cfg: Config, p: set<Action>, q: set<Action>, v: World)
    requires Deleter(cfg, q) && !LongGrace(cfg) && v.pc == Deciding && v.local == Doomed(p, q)
    requires v.seen == ABSENT && v.now == LateInSecond() + cfg.delay - 1 + cfg.lag
    ensures OnProceed(cfg, v) == v.(pc := Unpublishing(false))
  {
    assert !SucceededDuring(v.local.notes, v.now, cfg.grace);
  }

  /** Some faithful run ends by finalizing an object that is to be deleted while
      its resource exists. */
  lemma ShortGraceLeaks(cfg: Config, p: set<Action>, q: set<Action>) returns (es: seq<Event>)
    requires Creator(cfg, p) && Deleter(cfg, q) && !LongGrace(cfg)
    ensures Initial(NewWorld(p)) && FaithfulRun(cfg, NewWorld(p), es + [Wrote(NoFault)])
    ensures var u := Exec(cfg, NewWorld(p), es);
            var v := Next(cfg, u, Wrote(NoFault));
            FinalizerRemoved(u, v) && Policy(cfg, Current(u)).ShouldDelete() && !NoneLive(v)
  {
    hide Exec, FaithfulRun;
    var u: World;
    es, u := LeakFinalizes(cfg, p, q);
    var more, v := Do(cfg, NewWorld(p), es, Wrote(NoFault));
    assert Live(v, 0);
  }

  // ---- reconcilers that can do no harm ----

  lemma ActiveIsSupported(cfg: Config, o: Object)
    requires Active(cfg, o)
    ensures Policy(cfg, o).ShouldCreate() ==> CanCreate(cfg)
    ensures Policy(cfg, o).ShouldDelete() ==> CanDelete(cfg)
  {}

  /** Where no policy grants Create nothing is ever created. */
  lemma {:induction false} NothingIsCreated(cfg: Config, w: World, es: seq<Event>)
    requires !CanCreate(cfg) && RoundInv(cfg, w) && PoliteRun(cfg, w, es) && w.creates == []
    ensures Exec(cfg, w, es).creates == []
    decreases |es|
  {
    hide Next, DeletedForGood, Polite;
    if es != [] {
      var v := Next(cfg, w, es[0]);
      StepKeepsRound(cfg, w, es[0]);
      if v.creates != w.creates {
        CreateNeedsCreating(cfg, w, es[0]);
        ActiveIsSupported(cfg, w.local);
      }
      NothingIsCreated(cfg, v, es[1..]);
    }
  }

  lemma {:induction false} FaithfulIsSafe(cfg: Config, w: World, es: seq<Event>)
    requires FaithfulRun(cfg, w, es)
    ensures SafeRun(cfg, w, es) && PoliteRun(cfg, w, es)
    decreases |es|
  {
    hide Next, Polite, Timely, Faithful;
    if es != [] { FaithfulIsSafe(cfg, Next(cfg, w, es[0]), es[1..]); }
  }

  lemma {:induction false} UntimelyIsPolite(cfg: Config, w: World, es: seq<Event>)
    requires UntimelyRun(cfg, w, es)
    ensures PoliteRun(cfg, w, es)
    decreases |es|
  {
    hide Next, Polite, Faithful;
    if es != [] { UntimelyIsPolite(cfg, Next(cfg, w, es[0]), es[1..]); }
  }

  /** A step that removes the finalizer of an object to be deleted is that of a
      reconcile whose policy grants the deletion. */
  lemma RemovalIsGranted(cfg: Config, u: World, e: Event)
    requires Inv(u) && RoundInv(cfg, u) && Polite(u, e) && FinalizerRemoved(u, Next(cfg, u, e))
    requires Policy(cfg, Current(u)).ShouldDelete()
    ensures CanDelete(cfg) && e.Wrote?
  {
    hide Next, HistoryOk, AccountsOk, DeletedForGood, Polite, CreatingOk, PendingOk, CanDelete;
    RemovalIsFinalizing(cfg, u, e);
    assert Mirrors(u.local, Current(u));
    ActiveIsSupported(cfg, u.local);
  }

  lemma UnexposedIsSafe(cfg: Config, w: World, es: seq<Event>, e: Event)
    requires !cfg.deterministic && !(CanCreate(cfg) && CanDelete(cfg))
    requires Initial(w) && FaithfulRun(cfg, w, es + [e])
    requires var u := Exec(cfg, w, es);
             FinalizerRemoved(u, Next(cfg, u, e)) && Policy(cfg, Current(u)).ShouldDelete()
    ensures NoneLive(Next(cfg, Exec(cfg, w, es), e))
  {
    hide Exec, Next, FaithfulRun, SafeRun, PoliteRun, Inv, RoundInv, CanCreate, CanDelete, Polite;
    var u := Exec(cfg, w, es);
    FaithfulPrefix(cfg, w, es, e);
    FaithfulIsSafe(cfg, w, es);
    InitialInv(w);
    RunKeepsInv(cfg, w, es);
    InitialRound(cfg, w);
    RunKeepsRound(cfg, w, es);
    RemovalIsGranted(cfg, u, e);
    InitialHasNone(w);
    NothingIsCreated(cfg, w, es);
    ReplyKeepsExternal(cfg, u, e);
  }

  lemma InitialHasNone(w: World)
    requires Initial(w)
    ensures w.creates == []
  {}

  /** Never does a faithful run finalize an object that is to be deleted while a
      resource it created exists. */
  ghost predicate LeakFree(cfg: Config) {
    forall w: World, es: seq<Event>, e: Event {:trigger FaithfulRun(cfg, w, es + [e])} ::
      && Initial(w) && FaithfulRun(cfg, w, es + [e])
      && FinalizerRemoved(Exec(cfg, w, es), Next(cfg, Exec(cfg, w, es), e))
      && Policy(cfg, Current(Exec(cfg, w, es))).ShouldDelete()
      ==> NoneLive(Next(cfg, Exec(cfg, w, es), e))
  }

  /** Exactly when the reconciler is free of leaks: the grace period is long
      enough, or the policies it supports never grant both Create and Delete. */
  lemma LeakFreeExactly(cfg: Config)
    requires !cfg.deterministic
    ensures LeakFree(cfg) <==> LongGrace(cfg) || !CanCreate(cfg) || !CanDelete(cfg)
  {
    hide Exec, FaithfulRun, Next, Initial, NoneLive, LongGrace, CanCreate, CanDelete;
    if LongGrace(cfg) || !CanCreate(cfg) || !CanDelete(cfg) {
      forall w: World, es: seq<Event>, e: Event |
        && Initial(w) && FaithfulRun(cfg, w, es + [e])
        && FinalizerRemoved(Exec(cfg, w, es), Next(cfg, Exec(cfg, w, es), e))
        && Policy(cfg, Current(Exec(cfg, w, es))).ShouldDelete()
        ensures NoneLive(Next(cfg, Exec(cfg, w, es), e))
      {
        if LongGrace(cfg) { NoLeakAtFinalization(cfg, w, es, e); } else { UnexposedIsSafe(cfg, w, es, e); }
      }
    } else {
      var p := SomeCreator(cfg);
      var q := SomeDeleter(cfg);
      var es := ShortGraceLeaks(cfg, p, q);
    }
  }

  // ---- losing track, from the start ----

  lemma LeadsUntimely(cfg: Config, w: World, es: seq<Event>, v: World)
    requires Leads(cfg, w, es, true, v)
    ensures Leads(cfg, w, es, false, v)
  {}

  /** A first reconcile adds the finalizer and crashes. */
  lemma ReachFinalizer(cfg: Config, p: set<Action>) returns (es: seq<Event>, v: World)
    requires Creator(cfg, p)
    ensures Leads(cfg, NewWorld(p), es, false, v)
    ensures Ripe(cfg, v) && FINALIZER in Current(v).finalizers && OtherName(v, "y") && OtherName(v, "z")
  {
    hide Leads, Next;
    es, v := LeakStart(cfg, p);
    LeadsUntimely(cfg, NewWorld(p), es, v);
    CrashFacts(cfg, v);
    es, v := Go(cfg, NewWorld(p), es, false, v, Crash);
  }

  lemma CrashFacts(cfg: Config, w: World)
    ensures Next(cfg, w, Crash) == Goto(w, Idle) && Polite(w, Crash) && Faithful(cfg, w, Crash)
  {}

  /** A new object, a faithful environment but for the stamps, and two creations
      that have no outcome stored. */
  lemma UnsafeFromTheStart(cfg: Config, p: set<Action>) returns (es: seq<Event>, j: nat, k: nat)
    requires Creator(cfg, p)
    ensures Initial(NewWorld(p)) && UntimelyRun(cfg, NewWorld(p), es)
    ensures j < k < |Exec(cfg, NewWorld(p), es).creates|
    ensures Unrecorded(Exec(cfg, NewWorld(p), es), j) && Unrecorded(Exec(cfg, NewWorld(p), es), k)
  {
    hide Exec, UntimelyRun, Ripe, OtherName, Creator, Unrecorded;
    var u: World, v: World;
    es, v := ReachFinalizer(cfg, p);
    es, u := ReachFailure(cfg, NewWorld(p), es, v);
    RipeAfterFailure(cfg, v, u);
    OtherAfterFailure(v, u, "y");
    OtherAfterFailure(v, u, "z");
    es, v := TwoLost(cfg, NewWorld(p), es, u, "y", "z");
    j, k := |u.creates|, |u.creates| + 1;
  }

  /** Never do two creations lack an outcome, whatever the stamps. */
  ghost predicate SafeAnyway(cfg: Config) {
    forall w: World, es: seq<Event>, j: nat, k: nat ::
      && Initial(w) && UntimelyRun(cfg, w, es) && j < k < |Exec(cfg, w, es).creates|
      ==> !(Unrecorded(Exec(cfg, w, es), j) && Unrecorded(Exec(cfg, w, es), k))
  }

  /** Without the assumption on stamps only reconcilers that never create are
      safe. */
  lemma SafeAnywayExactly(cfg: Config)
    ensures SafeAnyway(cfg) <==> !CanCreate(cfg)
  {
    hide Exec, UntimelyRun, Initial, CanCreate, Unrecorded;
    if CanCreate(cfg) {
      var p := SomeCreator(cfg);
      var es, j, k := UnsafeFromTheStart(cfg, p);
    } else {
      forall w: World, es: seq<Event> | Initial(w) && UntimelyRun(cfg, w, es) ensures |Exec(cfg, w, es).creates| == 0 {
        UntimelyIsPolite(cfg, w, es);
        InitialRound(cfg, w);
        InitialHasNone(w);
        NothingIsCreated(cfg, w, es);
      }
    }
  }
}
