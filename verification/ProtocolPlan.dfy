/** What a reconcile comes to. A reconcile that nothing disturbs does what a table
over the fields of the object and the answers of the external system says: which
call it makes, what it stores, what it returns, and the stages it passes through. */
module ProtocolPlan {
  import opened Text
  import opened Meta
  import opened Policies
  import opened Protocol
  import opened ProtocolSafety
  import opened ProtocolRound

  // ---- what the fields of an object allow ----

  /** Paused by annotation or by an empty policy, or with a policy that is not
      supported. */
  predicate OnHold(cfg: Config, o: Object) {
    || ("crossplane.io/paused" in o.notes.others && o.notes.others["crossplane.io/paused"] == "true")
    || (cfg.enabled && (o.policies == {} || o.policies !in cfg.supported))
    || (!cfg.enabled && o.policies != {} && o.policies != {All})
  }

  /** The policy names the action, or all of them, or does not matter. */
  predicate May(cfg: Config, o: Object, a: Action) {
    cfg.enabled ==> a in o.policies || All in o.policies
  }

  /** Objects with a deletion policy keep their resource if it says so, unless
      their actions include deletion by name. */
  predicate MayDelete(cfg: Config, o: Object) {
    if !cfg.legacy then May(cfg, o, Delete)
    else if !cfg.enabled then o.deletionPolicy == DeleteExternal || o.deletionPolicy == Unset
    else Delete in o.policies || (All in o.policies && o.deletionPolicy == DeleteExternal)
  }

  predicate MayOnlyObserve(cfg: Config, o: Object) {
    cfg.enabled && forall a :: a in o.policies <==> a == Observe
  }

  /** A creation was announced later than any outcome is dated. */
  predicate Unfinished(n: Notes) {
    && n.pending.Some? && n.pending.value > 0
    && (n.succeeded.Some? ==> n.pending.value > n.succeeded.value)
    && (n.failed.Some? ==> n.pending.value > n.failed.value)
  }

  /** Successfully created, and less than `d` ago. */
  predicate Recent(n: Notes, now: nat, d: nat) {
    n.succeeded.Some? && n.succeeded.value > 0 && now < n.succeeded.value * SECOND + d
  }

  lemma AllowedExactly(cfg: Config, o: Object)
    ensures OnHold(cfg, o) <==> !Active(cfg, o)
    ensures Grants(cfg, o, Creates) <==> May(cfg, o, Create)
    ensures Grants(cfg, o, Updates) <==> May(cfg, o, Update)
    ensures Grants(cfg, o, Deletes) <==> MayDelete(cfg, o)
    ensures Policy(cfg, o).ShouldLateInitialize() <==> May(cfg, o, LateInitialize)
    ensures Policy(cfg, o).ShouldOnlyObserve() <==> MayOnlyObserve(cfg, o)
  {
    assert MayOnlyObserve(cfg, o) ==> o.policies == {Observe};
  }

  lemma NotesExactly(n: Notes, now: nat, d: nat)
    ensures CreateIncomplete(n) <==> Unfinished(n)
    ensures SucceededDuring(n, now, d) <==> Recent(n, now, d)
  {}

  // ---- the table ----

  /** How the external system answers a reconcile, and when the clock is read: to
      decide, to announce a creation, and to record its outcome. */
  datatype Replies = Replies(
    seen: Observation,
    spec: int,
    decidedAt: nat,
    stampedAt: nat,
    created: Option<string>,
    createdSpec: int,
    recordedAt: nat,
    updated: bool,
    status: int)

  /** The mutating calls made, the result, and what is stored in the end. */
  datatype Effect = Effect(calls: seq<Mutation>, result: Result, stored: Object)

  /** A nameless object is named after itself. */
  function AsNamed(cfg: Config, o: Object): Object {
    if cfg.nameAsExternalName && (o.notes.name == None || o.notes.name == Some("")) then
      o.(notes := o.notes.(name := Some(cfg.objectName)))
    else o
  }

  /** Nothing stands in the way of looking at the external resource. */
  predicate Observes(cfg: Config, o: Object) {
    && !OnHold(cfg, o)
    && (o.deleted ==> MayDelete(cfg, o))
    && (Unfinished(o.notes) ==> cfg.deterministic)
  }

  /** A missing resource is taken to be missing. */
  predicate Trusts(cfg: Config, o: Object, rs: Replies) {
    !rs.seen.present ==> !MayOnlyObserve(cfg, o) && !Recent(o.notes, rs.decidedAt, cfg.grace)
  }

  /** With our finalizer, which is stored together with the spec as observed. */
  function AsHeld(o: Object, rs: Replies): Object {
    if FINALIZER in o.finalizers then o else o.(finalizers := o.finalizers + {FINALIZER}, spec := rs.spec)
  }

  predicate WillCreate(cfg: Config, o: Object, rs: Replies) {
    Observes(cfg, o) && Trusts(cfg, o, rs) && !o.deleted && !rs.seen.present && May(cfg, o, Create)
  }

  predicate WillDelete(cfg: Config, o: Object, rs: Replies) {
    Observes(cfg, o) && o.deleted && rs.seen.present
  }

  /** The resource is there, or is not to be created. */
  predicate WillMaintain(cfg: Config, o: Object, rs: Replies) {
    Observes(cfg, o) && Trusts(cfg, o, rs) && !o.deleted && (rs.seen.present || !May(cfg, o, Create))
  }

  predicate WillUpdate(cfg: Config, o: Object, rs: Replies) {
    WillMaintain(cfg, o, rs) && !rs.seen.upToDate && May(cfg, o, Update)
  }

  predicate WillLateInitialize(cfg: Config, o: Object, rs: Replies) {
    WillMaintain(cfg, o, rs) && rs.seen.late && May(cfg, o, LateInitialize)
  }

  /** The finalizer goes: the resource is to be kept, or it is gone. */
  predicate WillFinalize(cfg: Config, o: Object, rs: Replies) {
    !OnHold(cfg, o) && o.deleted &&
    (!MayDelete(cfg, o) || (Observes(cfg, o) && Trusts(cfg, o, rs) && !rs.seen.present))
  }

  function Calls(cfg: Config, o: Object, rs: Replies): seq<Mutation> {
    if WillCreate(cfg, o, rs) then [Creates]
    else if WillUpdate(cfg, o, rs) then [Updates]
    else if WillDelete(cfg, o, rs) then [Deletes]
    else []
  }

  /** Stop where there is nothing to do, wait for the poll interval where all is
      well, and otherwise come back. */
  function Returns(cfg: Config, o: Object, rs: Replies): Result {
    if OnHold(cfg, o) || WillFinalize(cfg, o, rs) || !Observes(cfg, o) then Result(false, 0, false)
    else if WillMaintain(cfg, o, rs) && (WillUpdate(cfg, o, rs) ==> rs.updated) then Result(false, cfg.poll, false)
    else Result(true, 0, false)
  }

  function Recorded(o: Object, rs: Replies): Notes {
    var n := o.notes.(pending := Some(rs.stampedAt / SECOND));
    match rs.created
    case Some(name) => n.(name := Some(name), succeeded := Some(rs.recordedAt / SECOND))
    case None => n.(failed := Some(rs.recordedAt / SECOND))
  }

  /** What is stored, but for the status. */
  function Stores(cfg: Config, o: Object, rs: Replies): Object {
    var n := if OnHold(cfg, o) || (o.deleted && !MayDelete(cfg, o)) then o else AsNamed(cfg, o);
    var h := AsHeld(n, rs);
    if WillFinalize(cfg, n, rs) then
      if FINALIZER in n.finalizers then
        n.(finalizers := n.finalizers - {FINALIZER}, spec := if MayDelete(cfg, o) then rs.spec else o.spec)
      else n
    else if WillCreate(cfg, n, rs) then
      h.(notes := Recorded(n, rs), spec := if rs.created.Some? then rs.createdSpec else rs.spec)
    else if WillLateInitialize(cfg, n, rs) then h.(spec := rs.spec)
    else if WillMaintain(cfg, n, rs) then h
    else n
  }

  /** The status is stored last, unless the reconcile ends by finalizing the object
      or because it waits for a resource to show up. */
  predicate Reports(cfg: Config, o: Object, rs: Replies) {
    !WillFinalize(cfg, o, rs) && (Observes(cfg, o) ==> Trusts(cfg, o, rs) || MayOnlyObserve(cfg, o))
  }

  function Plan(cfg: Config, o: Object, rs: Replies): Effect {
    var n := AsNamed(cfg, o);
    var stored := Stores(cfg, o, rs);
    Effect(Calls(cfg, n, rs), Returns(cfg, n, rs), if Reports(cfg, n, rs) then stored.(status := rs.status) else stored)
  }

  // ---- an undisturbed reconcile ----

  /** Time passes, resources vanish, or the call in progress is answered: calls to
      the API server succeed, those to the external system are answered as in `rs`. */
  predicate Undisturbed(rs: Replies, w: World, e: Event)
    requires w.hist != []
  {
    || e.Tick? || e.Vanish?
    || match w.pc
       case Idle => false
       case Getting => e == Got(Read(|w.hist| - 1))
       case Unpublishing(_) => e == Called(Succeeds)
       case Finalizing(_) => e == Wrote(NoFault)
       case Initializing => e == Wrote(NoFault)
       case Resolving => e == Called(Succeeds)
       case Connecting => e == Called(Succeeds)
       case Observing => e == Observed(rs.seen, rs.spec)
       case Deciding => e == Proceed && w.now == rs.decidedAt
       case Deleting => e.Deleted?
       case Publishing(_) => e == Called(Succeeds)
       case AddingFinalizer => e == Wrote(NoFault)
       case Stamping => e == Proceed && w.now == rs.stampedAt
       case WritingPending => e == Wrote(NoFault)
       case Creating => e == if rs.created.Some? then Created(rs.created.value, rs.createdSpec) else CreateFailed
       case Recording(_) => e == Proceed && w.now == rs.recordedAt
       case WritingCritical(_) => e == Wrote(NoFault)
       case RereadingCritical(_) => false
       case LateInitializing => e == Wrote(NoFault)
       case Updating => e == Updated(rs.updated)
       case Reporting(_) => e == Reported(NoFault, rs.status)
  }

  predicate UndisturbedRun(cfg: Config, rs: Replies, w: World, es: seq<Event>)
    decreases |es|
  {
    es != [] ==> w.hist != [] && Undisturbed(rs, w, es[0]) && UndisturbedRun(cfg, rs, Next(cfg, w, es[0]), es[1..])
  }

  // ---- the invariant: where the reconcile is, in terms of the table ----

  /** What is stored and what the copy is, at each point of a reconcile of `o`. */
  ghost predicate Along(cfg: Config, rs: Replies, o: Object, u: World) {
    && u.hist != []
    && var n := AsNamed(cfg, o);
       var h := AsHeld(n, rs);
       var now, copy := Current(u), u.local;
       && (!u.pc.Idle? ==> !u.gone && !(now.deleted && now.finalizers == {}))
       && (!u.pc.Idle? && !u.pc.Getting? ==> u.rv + 1 == |u.hist|)
       && match u.pc
          case Idle => Effect(u.calls, u.result, now) == Plan(cfg, o, rs)
          case Getting => now == o && u.calls == []
          case Unpublishing(orphan) =>
            if orphan then now == copy == o && u.calls == [] && !OnHold(cfg, o) && o.deleted && !MayDelete(cfg, o)
            else
              now == n && copy == n.(spec := rs.spec) && u.calls == [] && Observes(cfg, n) && WillFinalize(cfg, n, rs)
          case Finalizing(orphan) =>
            && FINALIZER in copy.finalizers
            && if orphan then now == copy == o && u.calls == [] && !OnHold(cfg, o) && o.deleted && !MayDelete(cfg, o)
               else
                 now == n && copy == n.(spec := rs.spec) && u.calls == [] && Observes(cfg, n) && WillFinalize(cfg, n, rs)
          case Initializing =>
            && now == copy == o && u.calls == [] && !OnHold(cfg, o) && (o.deleted ==> MayDelete(cfg, o))
            && n == o.(notes := o.notes.(name := Some(cfg.objectName)))
            && cfg.nameAsExternalName && (o.notes.name == None || o.notes.name == Some(""))
          case Resolving => now == copy == n && u.calls == [] && Observes(cfg, n) && !n.deleted
          case Connecting => now == copy == n && u.calls == [] && Observes(cfg, n)
          case Observing => now == copy == n && u.calls == [] && Observes(cfg, n)
          case Deciding =>
            now == n && copy == n.(spec := rs.spec) && u.calls == [] && Observes(cfg, n) && u.seen == rs.seen
          case Deleting => now == n && u.calls == [] && WillDelete(cfg, n, rs)
          case Publishing(stage) =>
            (match stage
             case BeforeCreate =>
               && now == n && copy == n.(spec := rs.spec) && u.calls == [] && u.seen == rs.seen
               && Observes(cfg, n) && Trusts(cfg, n, rs) && !n.deleted
             case AfterCreate =>
               now == copy == Stores(cfg, o, rs) && u.calls == [Creates] && WillCreate(cfg, n, rs) && rs.created.Some?
             case AfterUpdate =>
               now == Stores(cfg, o, rs) && u.calls == [Updates] && WillUpdate(cfg, n, rs) && rs.updated)
          case AddingFinalizer =>
            && now == n && copy == n.(spec := rs.spec) && u.calls == [] && u.seen == rs.seen
            && FINALIZER !in n.finalizers
            && Observes(cfg, n) && Trusts(cfg, n, rs) && !n.deleted
          case Stamping => now == h && copy == h.(spec := rs.spec) && u.calls == [] && WillCreate(cfg, n, rs)
          case WritingPending =>
            && now == h && u.calls == [] && WillCreate(cfg, n, rs)
            && copy == h.(spec := rs.spec, notes := n.notes.(pending := Some(rs.stampedAt / SECOND)))
          case Creating =>
            && now == copy && u.calls == [] && WillCreate(cfg, n, rs)
            && copy == h.(spec := rs.spec, notes := n.notes.(pending := Some(rs.stampedAt / SECOND)))
          case Recording(success) =>
            && u.calls == [Creates] && WillCreate(cfg, n, rs) && success == rs.created.Some?
            && now.deleted == n.deleted
            && copy == h.(spec := if success then rs.createdSpec else rs.spec,
                          notes := n.notes.(pending := Some(rs.stampedAt / SECOND),
                                            name := if success then rs.created else n.notes.name))
          case WritingCritical(success) =>
            && u.calls == [Creates] && WillCreate(cfg, n, rs) && now.deleted == n.deleted && success == rs.created.Some?
            && copy == Stores(cfg, o, rs)
          case RereadingCritical(_) => false
          case LateInitializing =>
            && now == h && copy == h.(spec := rs.spec) && u.calls == [] && u.seen == rs.seen
            && WillLateInitialize(cfg, n, rs)
          case Updating => now == Stores(cfg, o, rs) && u.calls == [] && WillUpdate(cfg, n, rs)
          case Reporting(res) =>
            && Effect(u.calls, res, now.(status := rs.status)) == Plan(cfg, o, rs)
            && Reports(cfg, n, rs) && res == Returns(cfg, n, rs)
  }

  // ---- steps ----

  /** What a write does when nothing gets in the way. */
  lemma PlainWrite(w: World, o: Object)
    requires w.hist != [] && !w.gone && w.rv + 1 == |w.hist|
    ensures var a := Write(w, o, NoFault);
            && a.result == Landed && a.w.hist != [] && Current(a.w) == o && a.w.rv + 1 == |a.w.hist|
            && a.w == w.(hist := a.w.hist, gone := a.w.gone, rv := a.w.rv, local := o)
            && (!(o.deleted && o.finalizers == {}) ==> !a.w.gone)
  {}

  /** Objects with the same policies and annotations of others are treated alike. */
  lemma Alike(cfg: Config, o: Object, q: Object)
    requires q.policies == o.policies && q.deletionPolicy == o.deletionPolicy && q.notes.others == o.notes.others
    ensures OnHold(cfg, q) == OnHold(cfg, o) && MayDelete(cfg, q) == MayDelete(cfg, o)
    ensures MayOnlyObserve(cfg, q) == MayOnlyObserve(cfg, o)
    ensures forall a :: May(cfg, q, a) == May(cfg, o, a)
  {}

  /** What naming an object leaves alone. */
  lemma NamedAlike(cfg: Config, o: Object)
    ensures var n := AsNamed(cfg, o);
            && n == o.(notes := o.notes.(name := n.notes.name))
            && OnHold(cfg, n) == OnHold(cfg, o) && MayDelete(cfg, n) == MayDelete(cfg, o)
            && Unfinished(n.notes) == Unfinished(o.notes)
  {
    Alike(cfg, o, AsNamed(cfg, o));
  }

  /** What a look at the object, before one at the external system, leads to. */
  lemma PlanWithoutLooking(cfg: Config, o: Object, rs: Replies)
    requires !Observes(cfg, AsNamed(cfg, o))
    ensures OnHold(cfg, o) ==> Plan(cfg, o, rs) == Effect([], QUIET, o.(status := rs.status))
    ensures !OnHold(cfg, o) && o.deleted && !MayDelete(cfg, o) ==>
              Plan(cfg, o, rs) == Effect([], QUIET, o.(finalizers := o.finalizers - {FINALIZER}))
    ensures !OnHold(cfg, o) && (o.deleted ==> MayDelete(cfg, o)) ==>
              Plan(cfg, o, rs) == Effect([], QUIET, AsNamed(cfg, o).(status := rs.status))
    ensures Returns(cfg, AsNamed(cfg, o), rs) == QUIET
    ensures Reports(cfg, AsNamed(cfg, o), rs) <==> OnHold(cfg, o) || (o.deleted ==> MayDelete(cfg, o))
  {
    hide May, MayDelete, OnHold, Unfinished, Recent, MayOnlyObserve, AsNamed;
    NamedAlike(cfg, o);
    assert FINALIZER !in o.finalizers ==> o.finalizers - {FINALIZER} == o.finalizers;
  }

  lemma FirstInit(cfg: Config, rs: Replies, o: Object, u: World)
    requires u.hist != [] && !u.gone && u.rv + 1 == |u.hist| && u.calls == []
    requires Current(u) == u.local == AsNamed(cfg, o)
    requires !OnHold(cfg, o) && (o.deleted ==> MayDelete(cfg, o)) && !(o.deleted && o.finalizers == {})
    ensures Along(cfg, rs, o, AfterInit(cfg, u))
  {
    hide May, MayDelete, OnHold, Unfinished, CreateIncomplete, Recent, Plan, AsNamed, AsHeld;
    var n := AsNamed(cfg, o);
    NamedAlike(cfg, o);
    NotesExactly(n.notes, 0, 0);
    if !Observes(cfg, n) { PlanWithoutLooking(cfg, o, rs); }
  }

  lemma FirstLook(cfg: Config, rs: Replies, o: Object, u: World)
    requires Along(cfg, rs, o, u) && u.pc.Getting?
    ensures Along(cfg, rs, o, OnGot(cfg, u, Read(|u.hist| - 1)))
  {
    hide May, MayDelete, OnHold, IsPaused, AfterInit, Plan, AsHeld;
    var v := u.(rv := |u.hist| - 1, local := o);
    AllowedExactly(cfg, o);
    NamedAlike(cfg, o);
    if OnHold(cfg, o) || (o.deleted && !MayDelete(cfg, o)) { PlanWithoutLooking(cfg, o, rs); }
    else if AsNamed(cfg, o) == o { FirstInit(cfg, rs, o, v); }
  }

  /** What a look at the external system leads to. */
  lemma PlanAfterLooking(cfg: Config, o: Object, rs: Replies)
    requires Observes(cfg, AsNamed(cfg, o))
    ensures var n, poll := AsNamed(cfg, o), Result(false, cfg.poll, false);
            && (!Trusts(cfg, n, rs) ==>
                  Plan(cfg, o, rs)
                  == Effect([], REQUEUE, if MayOnlyObserve(cfg, n) then n.(status := rs.status) else n))
            && (WillDelete(cfg, n, rs) ==> Plan(cfg, o, rs) == Effect([Deletes], REQUEUE, n.(status := rs.status)))
            && (WillFinalize(cfg, n, rs) ==>
                  Plan(cfg, o, rs)
                  == Effect([], QUIET, if FINALIZER !in n.finalizers then n
                                       else n.(finalizers := n.finalizers - {FINALIZER}, spec := rs.spec)))
            && (WillCreate(cfg, n, rs) ==>
                  Plan(cfg, o, rs) == Effect([Creates], REQUEUE, Stores(cfg, o, rs).(status := rs.status)))
            && (WillMaintain(cfg, n, rs) ==>
                  Plan(cfg, o, rs) == Effect(if WillUpdate(cfg, n, rs) then [Updates] else [],
                                              if WillUpdate(cfg, n, rs) && !rs.updated then REQUEUE else poll,
                                              Stores(cfg, o, rs).(status := rs.status)))
            && Returns(cfg, n, rs) == Plan(cfg, o, rs).result
            && (Reports(cfg, n, rs) <==> !WillFinalize(cfg, n, rs) && (Trusts(cfg, n, rs) || MayOnlyObserve(cfg, n)))
  {
    hide May, MayDelete, OnHold, Unfinished, Recent, MayOnlyObserve, AsNamed, AsHeld;
    NamedAlike(cfg, o);
  }

  /** What is stored where the object is kept. */
  lemma StoresWhereKept(cfg: Config, o: Object, rs: Replies)
    requires Observes(cfg, AsNamed(cfg, o))
    ensures var n := AsNamed(cfg, o);
            var h := AsHeld(n, rs);
            && (WillCreate(cfg, n, rs) ==>
                  Stores(cfg, o, rs)
                  == h.(notes := Recorded(n, rs), spec := if rs.created.Some? then rs.createdSpec else rs.spec))
            && (WillMaintain(cfg, n, rs) ==>
                  Stores(cfg, o, rs) == if WillLateInitialize(cfg, n, rs) then h.(spec := rs.spec) else h)
  {
    hide May, MayDelete, OnHold, Unfinished, Recent, MayOnlyObserve, AsNamed, AsHeld;
    NamedAlike(cfg, o);
  }

  lemma GoesOnInit(cfg: Config, rs: Replies, o: Object, u: World)
    requires Along(cfg, rs, o, u) && u.pc.Initializing?
    ensures Along(cfg, rs, o, OnWrote(cfg, u, NoFault))
  {
    hide May, MayDelete, OnHold, AfterInit, Plan, AsHeld, Write, AsNamed;
    PlainWrite(u, AsNamed(cfg, o));
    FirstInit(cfg, rs, o, Write(u, AsNamed(cfg, o), NoFault).w);
  }

  lemma GoesOnFinalizing(cfg: Config, rs: Replies, o: Object, u: World)
    requires Along(cfg, rs, o, u) && u.pc.Finalizing?
    ensures Along(cfg, rs, o, OnWrote(cfg, u, NoFault))
  {
    hide May, MayDelete, OnHold, Plan, AsHeld, Write, AsNamed, Unfinished, Recent, MayOnlyObserve, Trusts;
    PlainWrite(u, u.local.(finalizers := u.local.finalizers - {FINALIZER}));
    if u.pc.orphan {
      NamedAlike(cfg, o);
      PlanWithoutLooking(cfg, o, rs);
    } else {
      PlanAfterLooking(cfg, o, rs);
    }
  }

  lemma GoesOnDeciding(cfg: Config, rs: Replies, o: Object, u: World)
    requires Along(cfg, rs, o, u) && u.pc.Deciding? && u.now == rs.decidedAt
    ensures Along(cfg, rs, o, Decide(cfg, u))
  {
    hide May, OnHold, Plan, AsHeld, AsNamed, Unfinished, Recent, MayOnlyObserve, SucceededDuring, MayDelete;
    var n := AsNamed(cfg, o);
    Alike(cfg, n, u.local);
    AllowedExactly(cfg, u.local);
    NotesExactly(n.notes, u.now, cfg.grace);
    PlanAfterLooking(cfg, o, rs);
  }

  lemma GoesOnHeld(cfg: Config, rs: Replies, o: Object, u: World)
    requires Observes(cfg, AsNamed(cfg, o)) && Trusts(cfg, AsNamed(cfg, o), rs) && !o.deleted
    requires u.hist != [] && !u.gone && u.rv + 1 == |u.hist| && u.calls == [] && u.seen == rs.seen
    requires Current(u) == AsHeld(AsNamed(cfg, o), rs) && u.local == Current(u).(spec := rs.spec)
    ensures Along(cfg, rs, o, AfterFinalizer(cfg, u))
  {
    hide May, OnHold, Plan, Unfinished, Recent, MayOnlyObserve, MayDelete, AfterLateInit, Stores;
    var n := AsNamed(cfg, o);
    Alike(cfg, n, u.local);
    AllowedExactly(cfg, u.local);
    StoresWhereKept(cfg, o, rs);
    if WillMaintain(cfg, n, rs) && !WillLateInitialize(cfg, n, rs) { GoesOnMaintaining(cfg, rs, o, u); }
  }

  lemma GoesOnMaintaining(cfg: Config, rs: Replies, o: Object, u: World)
    requires WillMaintain(cfg, AsNamed(cfg, o), rs)
    requires u.hist != [] && !u.gone && u.rv + 1 == |u.hist| && u.calls == [] && u.seen == rs.seen
    requires Current(u) == Stores(cfg, o, rs) && u.local == Current(u).(spec := rs.spec)
    ensures Along(cfg, rs, o, AfterLateInit(cfg, u))
  {
    hide May, OnHold, Plan, Unfinished, Recent, MayOnlyObserve, MayDelete, AsNamed, AsHeld;
    var n := AsNamed(cfg, o);
    StoresWhereKept(cfg, o, rs);
    NamedAlike(cfg, o);
    HeldAlike(n, rs);
    Alike(cfg, n, u.local);
    AllowedExactly(cfg, u.local);
    PlanAfterLooking(cfg, o, rs);
  }

  lemma HeldAlike(o: Object, rs: Replies)
    ensures var h := AsHeld(o, rs);
            && h == o.(finalizers := h.finalizers, spec := h.spec) && FINALIZER in h.finalizers
            && (FINALIZER in o.finalizers ==> h == o)
  {}

  lemma GoesOnCalled(cfg: Config, rs: Replies, o: Object, u: World)
    requires Along(cfg, rs, o, u)
    ensures Along(cfg, rs, o, OnCalled(cfg, u, Succeeds))
  {
    hide May, OnHold, Plan, Unfinished, Recent, MayOnlyObserve, MayDelete, AsNamed, AsHeld, AfterFinalizer, Stores,
      Trusts;
    NamedAlike(cfg, o);
    HeldAlike(AsNamed(cfg, o), rs);
    match u.pc
    case Unpublishing(orphan) =>
      if orphan { PlanWithoutLooking(cfg, o, rs); } else { PlanAfterLooking(cfg, o, rs); }
    case Publishing(stage) =>
      if stage == BeforeCreate {
        if FINALIZER in u.local.finalizers { GoesOnHeld(cfg, rs, o, u); }
      } else {
        PlanAfterLooking(cfg, o, rs);
      }
    case _ =>
  }

  lemma GoesOnAdding(cfg: Config, rs: Replies, o: Object, u: World)
    requires Along(cfg, rs, o, u) && u.pc.AddingFinalizer?
    ensures Along(cfg, rs, o, OnWrote(cfg, u, NoFault))
  {
    hide May, OnHold, Plan, Unfinished, Recent, MayOnlyObserve, MayDelete, AsNamed, AfterFinalizer, Stores, Trusts,
      Write;
    var q := u.local.(finalizers := u.local.finalizers + {FINALIZER});
    NamedAlike(cfg, o);
    PlainWrite(u, q);
    GoesOnHeld(cfg, rs, o, Write(u, q, NoFault).w);
  }

  lemma GoesOnPending(cfg: Config, rs: Replies, o: Object, u: World)
    requires Along(cfg, rs, o, u) && (u.pc.WritingPending? || u.pc.LateInitializing?)
    ensures Along(cfg, rs, o, OnWrote(cfg, u, NoFault))
  {
    hide May, OnHold, Plan, Unfinished, Recent, MayOnlyObserve, MayDelete, AsNamed, AsHeld, AfterLateInit, Stores,
      Trusts, Write;
    NamedAlike(cfg, o);
    HeldAlike(AsNamed(cfg, o), rs);
    PlainWrite(u, u.local);
    if u.pc.LateInitializing? {
      StoresWhereKept(cfg, o, rs);
      GoesOnMaintaining(cfg, rs, o, Write(u, u.local, NoFault).w);
    }
  }

  lemma GoesOnRecording(cfg: Config, rs: Replies, o: Object, u: World)
    requires Along(cfg, rs, o, u) && u.pc.Recording? && u.now == rs.recordedAt
    ensures Along(cfg, rs, o, Record(u, u.pc.success))
  {
    hide May, OnHold, Plan, Unfinished, Recent, MayOnlyObserve, MayDelete, AsNamed, AsHeld, Stores, Trusts;
    StoresWhereKept(cfg, o, rs);
  }

  lemma GoesOnCritical(cfg: Config, rs: Replies, o: Object, u: World)
    requires Along(cfg, rs, o, u) && u.pc.WritingCritical?
    ensures Along(cfg, rs, o, OnWrote(cfg, u, NoFault))
  {
    hide May, OnHold, Plan, Unfinished, Recent, MayOnlyObserve, MayDelete, AsNamed, AsHeld, Stores, Trusts, Write;
    NamedAlike(cfg, o);
    HeldAlike(AsNamed(cfg, o), rs);
    StoresWhereKept(cfg, o, rs);
    PlanAfterLooking(cfg, o, rs);
    PlainWrite(u, u.local);
  }

  lemma GoesOnReporting(cfg: Config, rs: Replies, o: Object, u: World)
    requires Along(cfg, rs, o, u) && u.pc.Reporting?
    ensures Along(cfg, rs, o, OnReported(u, u.pc.res, NoFault, rs.status))
  {
    hide Plan, AsNamed, AsHeld, Write;
    PlainWrite(u, Current(u).(status := rs.status));
  }

  lemma GoesOnWrote(cfg: Config, rs: Replies, o: Object, u: World)
    requires Along(cfg, rs, o, u) && Undisturbed(rs, u, Wrote(NoFault))
    ensures Along(cfg, rs, o, OnWrote(cfg, u, NoFault))
  {
    hide Along, OnWrote;
    match u.pc
    case Initializing => GoesOnInit(cfg, rs, o, u);
    case Finalizing(_) => GoesOnFinalizing(cfg, rs, o, u);
    case AddingFinalizer => GoesOnAdding(cfg, rs, o, u);
    case WritingPending => GoesOnPending(cfg, rs, o, u);
    case WritingCritical(_) => GoesOnCritical(cfg, rs, o, u);
    case LateInitializing => GoesOnPending(cfg, rs, o, u);
  }

  lemma GoesOnStamping(cfg: Config, rs: Replies, o: Object, u: World)
    requires Along(cfg, rs, o, u) && u.pc.Stamping? && u.now == rs.stampedAt
    ensures Along(cfg, rs, o, OnProceed(cfg, u))
  {
    hide May, OnHold, Plan, Unfinished, Recent, MayOnlyObserve, MayDelete, AsNamed, AsHeld, Stores, Trusts, Decide,
      Record;
    HeldAlike(AsNamed(cfg, o), rs);
  }

  lemma GoesOnProceeding(cfg: Config, rs: Replies, o: Object, u: World)
    requires Along(cfg, rs, o, u) && Undisturbed(rs, u, Proceed)
    ensures Along(cfg, rs, o, OnProceed(cfg, u))
  {
    hide Along, Decide, Record;
    match u.pc
    case Deciding => GoesOnDeciding(cfg, rs, o, u);
    case Stamping => GoesOnStamping(cfg, rs, o, u);
    case Recording(_) => GoesOnRecording(cfg, rs, o, u);
  }

  lemma GoesOnCreating(cfg: Config, rs: Replies, o: Object, u: World)
    requires Along(cfg, rs, o, u) && u.pc.Creating?
    ensures rs.created.Some? ==> Along(cfg, rs, o, OnCreated(u, rs.created.value, rs.createdSpec))
    ensures rs.created.None? ==> Along(cfg, rs, o, OnCreateFailed(u))
  {
    hide May, OnHold, Plan, Unfinished, Recent, MayOnlyObserve, MayDelete, AsNamed, AsHeld, Stores, Trusts;
    NamedAlike(cfg, o);
    HeldAlike(AsNamed(cfg, o), rs);
  }

  lemma GoesOnObserving(cfg: Config, rs: Replies, o: Object, u: World)
    requires Along(cfg, rs, o, u) && u.pc.Observing?
    ensures Along(cfg, rs, o, Next(cfg, u, Observed(rs.seen, rs.spec)))
  {
    hide Observes, Plan, AsNamed, AsHeld, Stores, Trusts, WillFinalize, WillCreate, WillLateInitialize, WillUpdate,
      WillDelete;
  }

  lemma GoesOnExternal(cfg: Config, rs: Replies, o: Object, u: World, e: Event)
    requires Along(cfg, rs, o, u) && Undisturbed(rs, u, e)
    requires u.pc.Deleting? || u.pc.Updating?
    requires !e.Tick? && !e.Vanish?
    ensures Along(cfg, rs, o, Next(cfg, u, e))
  {
    hide WillFinalize, WillCreate, WillLateInitialize, May, OnHold, Plan, Unfinished, Recent, MayOnlyObserve,
      MayDelete, AsNamed, AsHeld, Stores, Trusts, Write, Commit, OnGot, OnWrote, OnCalled, OnProceed, OnReported,
      OnCreated, OnCreateFailed;
    PlanAfterLooking(cfg, o, rs);
  }

  lemma GoesOnAround(cfg: Config, rs: Replies, o: Object, u: World, e: Event)
    requires Along(cfg, rs, o, u) && (e.Tick? || e.Vanish?)
    ensures Along(cfg, rs, o, Next(cfg, u, e))
  {
    hide Plan, AsNamed, AsHeld, Stores, Commit, OnGot, OnWrote, OnCalled, OnProceed, OnReported,
      WillCreate, WillDelete, WillFinalize, WillLateInitialize, WillUpdate, Observes, Trusts, OnHold, MayDelete;
  }

  lemma StepAlong(cfg: Config, rs: Replies, o: Object, u: World, e: Event)
    requires Along(cfg, rs, o, u) && u.hist != [] && Undisturbed(rs, u, e)
    ensures Along(cfg, rs, o, Next(cfg, u, e))
  {
    hide Along, OnGot, OnWrote, OnCalled, OnProceed, OnReported, Commit, OnCreated, OnCreateFailed;
    if e.Tick? || e.Vanish? {
      GoesOnAround(cfg, rs, o, u, e);
    } else {
      match u.pc
      case Getting => FirstLook(cfg, rs, o, u);
      case Observing => GoesOnObserving(cfg, rs, o, u);
      case Creating => GoesOnCreating(cfg, rs, o, u);
      case Deleting => GoesOnExternal(cfg, rs, o, u, e);
      case Updating => GoesOnExternal(cfg, rs, o, u, e);
      case Reporting(_) => GoesOnReporting(cfg, rs, o, u);
      case _ =>
        if e.Called? { GoesOnCalled(cfg, rs, o, u); }
        else if e.Wrote? { GoesOnWrote(cfg, rs, o, u); }
        else { GoesOnProceeding(cfg, rs, o, u); }
    }
  }

  lemma {:induction false} RunAlong(cfg: Config, rs: Replies, o: Object, u: World, es: seq<Event>)
    requires Along(cfg, rs, o, u) && UndisturbedRun(cfg, rs, u, es)
    ensures Along(cfg, rs, o, Exec(cfg, u, es))
    decreases |es|
  {
    hide Along, Next, Undisturbed;
    if es != [] {
      StepAlong(cfg, rs, o, u, es[0]);
      RunAlong(cfg, rs, o, Next(cfg, u, es[0]), es[1..]);
    }
  }

  /** An undisturbed reconcile does what the table says: the calls it makes, what
      it returns, and the object as it is stored in the end. */
  lemma ReconcileIsPlanned(cfg: Config, rs: Replies, w: World, es: seq<Event>)
    requires w.hist != [] && !w.gone && !(Current(w).deleted && Current(w).finalizers == {}) && w.pc.Idle?
    requires UndisturbedRun(cfg, rs, Next(cfg, w, Start), es)
    requires Exec(cfg, Next(cfg, w, Start), es).pc.Idle?
    ensures var u := Exec(cfg, Next(cfg, w, Start), es);
            u.hist != [] && Effect(u.calls, u.result, Current(u)) == Plan(cfg, Current(w), rs)
  {
    hide Exec, UndisturbedRun, Plan, AsNamed, AsHeld, Stores;
    RunAlong(cfg, rs, Current(w), Next(cfg, w, Start), es);
  }

  /** How many answers an undisturbed reconcile is away from its end at most. */
  function Distance(pc: Pc): nat {
    match pc
    case Idle => 0
    case Reporting(_) => 1
    case Finalizing(_) => 1
    case Unpublishing(_) => 2
    case Deleting => 2
    case Publishing(stage) => if stage == BeforeCreate then 10 else 2
    case Updating => 3
    case LateInitializing => 4
    case WritingCritical(_) => 3
    case RereadingCritical(_) => 4
    case Recording(_) => 5
    case Creating => 6
    case WritingPending => 7
    case Stamping => 8
    case AddingFinalizer => 9
    case Deciding => 11
    case Observing => 12
    case Connecting => 13
    case Resolving => 14
    case Initializing => 15
    case Getting => 16
  }

  lemma AlongBasics(cfg: Config, rs: Replies, o: Object, u: World)
    requires Along(cfg, rs, o, u) && !u.pc.Idle?
    ensures u.hist != [] && !u.gone && (!u.pc.Getting? ==> u.rv + 1 == |u.hist|) && !u.pc.RereadingCritical?
  {
    hide Plan, Stores, AsNamed, AsHeld, WillCreate, WillDelete, WillFinalize, WillLateInitialize, WillUpdate, Observes,
      Trusts, OnHold, MayDelete;
  }

  lemma WriteCounts(cfg: Config, u: World)
    requires u.hist != [] && !u.gone && u.rv + 1 == |u.hist|
    requires u.pc.Initializing? || u.pc.Finalizing? || u.pc.AddingFinalizer? || u.pc.WritingPending?
             || u.pc.WritingCritical? || u.pc.LateInitializing?
    ensures Distance(OnWrote(cfg, u, NoFault).pc) < Distance(u.pc)
  {
    hide CreateIncomplete, Policy, Write;
    PlainWrite(u, Named(cfg, u.local));
    PlainWrite(u, u.local.(finalizers := u.local.finalizers - {FINALIZER}));
    PlainWrite(u, u.local.(finalizers := u.local.finalizers + {FINALIZER}));
    PlainWrite(u, u.local);
  }

  lemma GotCounts(cfg: Config, u: World)
    requires u.hist != [] && u.pc.Getting?
    ensures Distance(OnGot(cfg, u, Read(|u.hist| - 1)).pc) < Distance(u.pc)
  {
    hide IsPaused, CreateIncomplete, Policy;
  }

  lemma CalledCounts(cfg: Config, u: World)
    requires u.pc.Unpublishing? || u.pc.Resolving? || u.pc.Connecting? || u.pc.Publishing?
    ensures Distance(OnCalled(cfg, u, Succeeds).pc) < Distance(u.pc)
  {
    hide Policy;
  }

  lemma ProceedCounts(cfg: Config, u: World)
    requires u.pc.Deciding? || u.pc.Stamping? || u.pc.Recording?
    ensures Distance(OnProceed(cfg, u).pc) < Distance(u.pc)
  {
    hide Policy, SucceededDuring;
  }

  /** Every answer brings it closer to its end. */
  lemma EveryAnswerCounts(cfg: Config, rs: Replies, o: Object, u: World, e: Event)
    requires Along(cfg, rs, o, u) && u.hist != [] && Undisturbed(rs, u, e) && !u.pc.Idle?
    ensures if e.Tick? || e.Vanish? then Next(cfg, u, e).pc == u.pc else Distance(Next(cfg, u, e).pc) < Distance(u.pc)
  {
    hide Along, OnGot, OnWrote, OnCalled, OnProceed, Commit;
    AlongBasics(cfg, rs, o, u);
    if e.Wrote? { WriteCounts(cfg, u); }
    else if e.Got? { GotCounts(cfg, u); }
    else if e.Called? { CalledCounts(cfg, u); }
    else if e.Proceed? { ProceedCounts(cfg, u); }
  }

  // ---- the stages it passes through ----

  function Nameless(cfg: Config, o: Object): seq<Pc> {
    if cfg.nameAsExternalName && (o.notes.name == None || o.notes.name == Some("")) then [Initializing] else []
  }

  /** References are resolved, unless the object is deleted; then the external
      system is connected to and asked. */
  function Looking(cfg: Config, o: Object): seq<Pc> {
    [Getting] + Nameless(cfg, o) + (if o.deleted then [] else [Resolving]) + [Connecting, Observing, Deciding]
  }

  /** Connection details are published and the finalizer added, before anything is
      created. */
  function Keeping(cfg: Config, o: Object): seq<Pc> {
    Looking(cfg, o) + [Publishing(BeforeCreate)] + if FINALIZER in o.finalizers then [] else [AddingFinalizer]
  }

  /** The call is announced, made, and its outcome recorded; connection details are
      published where it succeeded. */
  function CreationStages(success: bool): seq<Pc> {
    [Stamping, WritingPending, Creating, Recording(success), WritingCritical(success)]
    + if success then [Publishing(AfterCreate)] else []
  }

  function Maintenance(cfg: Config, o: Object, rs: Replies): seq<Pc> {
    (if WillLateInitialize(cfg, o, rs) then [LateInitializing] else [])
    + if !WillUpdate(cfg, o, rs) then [] else if rs.updated then [Updating, Publishing(AfterUpdate)] else [Updating]
  }

  /** Connection details are unpublished before the finalizer is removed. */
  function Leaving(o: Object, orphan: bool): seq<Pc> {
    [Unpublishing(orphan)] + if FINALIZER in o.finalizers then [Finalizing(orphan)] else []
  }

  /** The stages of a reconcile, but for the closing status update. */
  function Stages(cfg: Config, o: Object, rs: Replies): seq<Pc> {
    if OnHold(cfg, o) then [Getting]
    else if o.deleted && !MayDelete(cfg, o) then [Getting] + Leaving(o, true)
    else if !Observes(cfg, o) then [Getting] + Nameless(cfg, o)
    else if !Trusts(cfg, o, rs) then Looking(cfg, o)
    else if WillDelete(cfg, o, rs) then Looking(cfg, o) + [Deleting]
    else if o.deleted then Looking(cfg, o) + Leaving(o, false)
    else if WillCreate(cfg, o, rs) then Keeping(cfg, o) + CreationStages(rs.created.Some?)
    else Keeping(cfg, o) + Maintenance(cfg, o, rs)
  }

  /** The stages before the one that is reached. */
  function Before(cfg: Config, o: Object, rs: Replies, pc: Pc): seq<Pc> {
    var named := [Getting] + Nameless(cfg, o);
    var resolved := named + if o.deleted then [] else [Resolving];
    match pc
    case Idle => Stages(cfg, o, rs) + if Reports(cfg, o, rs) then [Reporting(Returns(cfg, o, rs))] else []
    case Getting => []
    case Initializing => [Getting]
    case Resolving => named
    case Connecting => resolved
    case Observing => resolved + [Connecting]
    case Deciding => resolved + [Connecting, Observing]
    case Deleting => Looking(cfg, o)
    case Unpublishing(orphan) => if orphan then [Getting] else Looking(cfg, o)
    case Finalizing(orphan) => (if orphan then [Getting] else Looking(cfg, o)) + [Unpublishing(orphan)]
    case Publishing(stage) =>
      (match stage
       case BeforeCreate => Looking(cfg, o)
       case AfterCreate =>
         Keeping(cfg, o) + [Stamping, WritingPending, Creating, Recording(true), WritingCritical(true)]
       case AfterUpdate =>
         Keeping(cfg, o) + (if WillLateInitialize(cfg, o, rs) then [LateInitializing] else []) + [Updating])
    case AddingFinalizer => Looking(cfg, o) + [Publishing(BeforeCreate)]
    case Stamping => Keeping(cfg, o)
    case WritingPending => Keeping(cfg, o) + [Stamping]
    case Creating => Keeping(cfg, o) + [Stamping, WritingPending]
    case Recording(_) => Keeping(cfg, o) + [Stamping, WritingPending, Creating]
    case WritingCritical(success) => Keeping(cfg, o) + [Stamping, WritingPending, Creating, Recording(success)]
    case RereadingCritical(_) => []
    case LateInitializing => Keeping(cfg, o)
    case Updating => Keeping(cfg, o) + if WillLateInitialize(cfg, o, rs) then [LateInitializing] else []
    case Reporting(_) => Stages(cfg, o, rs)
  }

  /** The stages a run passes through: those it leaves for another. */
  function Passed(cfg: Config, w: World, es: seq<Event>): seq<Pc>
    decreases |es|
  {
    if es == [] then []
    else (if Next(cfg, w, es[0]).pc == w.pc then [] else [w.pc]) + Passed(cfg, Next(cfg, w, es[0]), es[1..])
  }

  /** Naming an object changes nothing about what will be done with it. */
  lemma NamedWill(cfg: Config, o: Object, rs: Replies)
    ensures var n := AsNamed(cfg, o);
            && OnHold(cfg, n) == OnHold(cfg, o) && MayDelete(cfg, n) == MayDelete(cfg, o)
            && Observes(cfg, n) == Observes(cfg, o)
            && Trusts(cfg, n, rs) == Trusts(cfg, o, rs) && MayOnlyObserve(cfg, n) == MayOnlyObserve(cfg, o)
            && WillDelete(cfg, n, rs) == WillDelete(cfg, o, rs) && WillFinalize(cfg, n, rs) == WillFinalize(cfg, o, rs)
            && WillCreate(cfg, n, rs) == WillCreate(cfg, o, rs) && WillMaintain(cfg, n, rs) == WillMaintain(cfg, o, rs)
            && WillUpdate(cfg, n, rs) == WillUpdate(cfg, o, rs)
            && WillLateInitialize(cfg, n, rs) == WillLateInitialize(cfg, o, rs)
            && Reports(cfg, n, rs) == Reports(cfg, o, rs) && Returns(cfg, n, rs) == Returns(cfg, o, rs)
            && n.deleted == o.deleted && n.finalizers == o.finalizers
  {
    hide May, MayDelete, OnHold, MayOnlyObserve, Unfinished, Recent, AsNamed;
    var n := AsNamed(cfg, o);
    NamedAlike(cfg, o);
    Alike(cfg, o, n);
    assert Recent(n.notes, rs.decidedAt, cfg.grace) == Recent(o.notes, rs.decidedAt, cfg.grace) by {
      SameRecent(o.notes, n.notes, rs.decidedAt, cfg.grace);
    }
  }

  lemma SameRecent(n: Notes, m: Notes, now: nat, d: nat)
    requires m.succeeded == n.succeeded
    ensures Recent(m, now, d) == Recent(n, now, d)
  {}

  lemma StageAfterInit(cfg: Config, rs: Replies, o: Object, u: World)
    requires u.local == AsNamed(cfg, o) && !OnHold(cfg, o) && (o.deleted ==> MayDelete(cfg, o))
    ensures Before(cfg, o, rs, AfterInit(cfg, u).pc) == [Getting] + Nameless(cfg, o)
  {
    hide May, MayDelete, OnHold, Unfinished, CreateIncomplete, AsNamed, Nameless, Looking, Keeping, Maintenance,
      Leaving, CreationStages;
    NamedAlike(cfg, o);
    NotesExactly(u.local.notes, 0, 0);
  }

  lemma StageAfterGet(cfg: Config, rs: Replies, o: Object, u: World)
    requires Along(cfg, rs, o, u) && u.pc.Getting?
    ensures Before(cfg, o, rs, OnGot(cfg, u, Read(|u.hist| - 1)).pc) == [Getting]
  {
    hide May, MayDelete, OnHold, Unfinished, CreateIncomplete, IsPaused, AfterInit, Looking, Keeping, Maintenance,
      CreationStages, Plan, AsHeld, Stores;
    AllowedExactly(cfg, o);
    var v := u.(rv := |u.hist| - 1, local := o);
    if !OnHold(cfg, o) && (o.deleted ==> MayDelete(cfg, o)) && Nameless(cfg, o) == [] { StageAfterInit(cfg, rs, o, v); }
  }

  lemma StageAfterDeciding(cfg: Config, rs: Replies, o: Object, u: World)
    requires Along(cfg, rs, o, u) && u.pc.Deciding? && u.now == rs.decidedAt
    ensures Before(cfg, o, rs, Decide(cfg, u).pc) == Looking(cfg, o)
  {
    hide May, MayDelete, OnHold, Unfinished, Recent, SucceededDuring, MayOnlyObserve, AsNamed, Nameless, Looking,
      Keeping, Maintenance, CreationStages, Plan, AsHeld, Stores, Returns;
    var n := AsNamed(cfg, o);
    NamedWill(cfg, o, rs);
    Alike(cfg, n, u.local);
    AllowedExactly(cfg, u.local);
    NotesExactly(n.notes, u.now, cfg.grace);
  }

  lemma StageMaintaining(cfg: Config, rs: Replies, o: Object, u: World)
    requires WillMaintain(cfg, o, rs) && u.seen == rs.seen
    requires u.local.policies == o.policies && u.local.deletionPolicy == o.deletionPolicy
    requires u.local.notes.others == o.notes.others
    ensures Before(cfg, o, rs, AfterLateInit(cfg, u).pc)
            == Keeping(cfg, o) + if WillLateInitialize(cfg, o, rs) then [LateInitializing] else []
  {
    hide May, MayDelete, OnHold, Unfinished, Recent, MayOnlyObserve, Nameless, Looking, Keeping;
    Alike(cfg, o, u.local);
    AllowedExactly(cfg, u.local);
    var late := if WillLateInitialize(cfg, o, rs) then [LateInitializing] else [];
    assert !WillUpdate(cfg, o, rs) ==> Maintenance(cfg, o, rs) == late;
  }

  lemma StageAfterHeld(cfg: Config, rs: Replies, o: Object, u: World)
    requires Observes(cfg, o) && Trusts(cfg, o, rs) && !o.deleted && u.seen == rs.seen
    requires u.local.policies == o.policies && u.local.deletionPolicy == o.deletionPolicy
    requires u.local.notes.others == o.notes.others
    ensures Before(cfg, o, rs, AfterFinalizer(cfg, u).pc) == Keeping(cfg, o)
  {
    hide May, MayDelete, OnHold, Unfinished, Recent, MayOnlyObserve, Nameless, Looking, Keeping, Trusts, Observes,
      AfterLateInit, Stages;
    Alike(cfg, o, u.local);
    AllowedExactly(cfg, u.local);
    if WillMaintain(cfg, o, rs) && !WillLateInitialize(cfg, o, rs) {
      StageMaintaining(cfg, rs, o, u);
      assert Keeping(cfg, o) + [] == Keeping(cfg, o);
    }
  }

  lemma StageAfterWrite(cfg: Config, rs: Replies, o: Object, u: World)
    requires Along(cfg, rs, o, u) && (u.pc.Initializing? || u.pc.AddingFinalizer? || u.pc.LateInitializing?)
    ensures Before(cfg, o, rs, OnWrote(cfg, u, NoFault).pc) == Before(cfg, o, rs, u.pc) + [u.pc]
  {
    hide May, MayDelete, OnHold, Unfinished, Recent, MayOnlyObserve, AsNamed, AsHeld, Plan, Stores, Write, AfterInit,
      AfterFinalizer, AfterLateInit, Looking, Maintenance, Returns, Reports;
    NamedWill(cfg, o, rs);
    NamedAlike(cfg, o);
    HeldAlike(AsNamed(cfg, o), rs);
    PlainWrite(u, Sent(cfg, u));
    var a := Write(u, Sent(cfg, u), NoFault).w;
    if u.pc.Initializing? {
      NamelessAlone(cfg, o);
      StageAfterInit(cfg, rs, o, a);
    } else if u.pc.AddingFinalizer? {
      StageAfterHeld(cfg, rs, o, a);
    } else {
      StageMaintaining(cfg, rs, o, a);
    }
  }

  lemma StageAfterLastWrite(cfg: Config, rs: Replies, o: Object, u: World)
    requires Along(cfg, rs, o, u) && (u.pc.Finalizing? || u.pc.WritingPending? || u.pc.WritingCritical?)
    ensures Before(cfg, o, rs, OnWrote(cfg, u, NoFault).pc) == Before(cfg, o, rs, u.pc) + [u.pc]
  {
    hide May, MayDelete, OnHold, Unfinished, Recent, MayOnlyObserve, AsNamed, AsHeld, Plan, Write, Looking, Keeping,
      Maintenance, Returns;
    NamedWill(cfg, o, rs);
    PlainWrite(u, Sent(cfg, u));
    if u.pc.Finalizing? { StageAtEnd(cfg, rs, o); }
    else { CreateStages(cfg, rs, o); }
  }

  lemma NamelessAlone(cfg: Config, o: Object)
    ensures Nameless(cfg, o) == [] || Nameless(cfg, o) == [Initializing]
    ensures cfg.nameAsExternalName && ExternalName(o.notes) == "" <==> Nameless(cfg, o) != []
  {}

  lemma StageAtEnd(cfg: Config, rs: Replies, o: Object)
    requires WillFinalize(cfg, o, rs)
    ensures Before(cfg, o, rs, Idle)
            == (if MayDelete(cfg, o) then Looking(cfg, o) else [Getting]) + Leaving(o, !MayDelete(cfg, o))
  {
    hide May, MayDelete, OnHold, Unfinished, Recent, MayOnlyObserve, Looking, Keeping, Maintenance, CreationStages;
  }

  lemma StageAfterCall(cfg: Config, rs: Replies, o: Object, u: World)
    requires Along(cfg, rs, o, u) && (u.pc.Unpublishing? || u.pc.Resolving? || u.pc.Connecting?)
    ensures Before(cfg, o, rs, OnCalled(cfg, u, Succeeds).pc) == Before(cfg, o, rs, u.pc) + [u.pc]
  {
    hide May, MayDelete, OnHold, Unfinished, Recent, MayOnlyObserve, AsNamed, AsHeld, Plan, Nameless, AfterPublish,
      Stores, Returns, Stages;
    NamedWill(cfg, o, rs);
    if u.pc.Unpublishing? { StageAtEnd(cfg, rs, o); }
  }

  lemma StageAfterPublishing(cfg: Config, rs: Replies, o: Object, u: World)
    requires Along(cfg, rs, o, u) && u.pc.Publishing?
    ensures Before(cfg, o, rs, OnCalled(cfg, u, Succeeds).pc) == Before(cfg, o, rs, u.pc) + [u.pc]
  {
    hide May, MayDelete, OnHold, Unfinished, Recent, MayOnlyObserve, AsNamed, AsHeld, Plan, Nameless, AfterFinalizer,
      Stores, Returns, Stages, Looking;
    NamedWill(cfg, o, rs);
    NamedAlike(cfg, o);
    match u.pc.stage
    case BeforeCreate => if FINALIZER in u.local.finalizers { StageAfterHeld(cfg, rs, o, u); }
    case AfterUpdate => UpdateStages(cfg, rs, o);
    case AfterCreate => CreateStages(cfg, rs, o);
  }

  lemma UpdateStages(cfg: Config, rs: Replies, o: Object)
    requires WillUpdate(cfg, o, rs)
    ensures Before(cfg, o, rs, Publishing(AfterUpdate)) == Before(cfg, o, rs, Updating) + [Updating]
    ensures rs.updated ==> Stages(cfg, o, rs) == Before(cfg, o, rs, Publishing(AfterUpdate)) + [Publishing(AfterUpdate)]
    ensures !rs.updated ==> Stages(cfg, o, rs) == Before(cfg, o, rs, Updating) + [Updating]
  {
    hide May, MayDelete, OnHold, Unfinished, Recent, MayOnlyObserve, Nameless, Looking, Keeping;
  }

  lemma CreateStages(cfg: Config, rs: Replies, o: Object)
    requires WillCreate(cfg, o, rs)
    ensures rs.created.Some? ==>
              Stages(cfg, o, rs) == Before(cfg, o, rs, Publishing(AfterCreate)) + [Publishing(AfterCreate)]
    ensures rs.created.None? ==>
              Stages(cfg, o, rs) == Before(cfg, o, rs, WritingCritical(false)) + [WritingCritical(false)]
  {
    hide May, MayDelete, OnHold, Unfinished, Recent, MayOnlyObserve, Nameless, Looking, Keeping;
  }

  lemma StageAfterAnswer(cfg: Config, rs: Replies, o: Object, u: World, e: Event)
    requires Along(cfg, rs, o, u) && Undisturbed(rs, u, e) && !e.Tick? && !e.Vanish?
    requires u.pc.Observing? || u.pc.Creating? || u.pc.Stamping? || u.pc.Recording? || u.pc.Reporting?
    ensures Before(cfg, o, rs, Next(cfg, u, e).pc) == Before(cfg, o, rs, u.pc) + [u.pc]
  {
    hide May, MayDelete, OnHold, Unfinished, Recent, MayOnlyObserve, AsNamed, AsHeld, Plan, Stores, Write, Commit,
      Nameless, Keeping, OnGot, OnCalled, OnWrote, Decide, Returns, Reports, Stages, Trusts, Looking, WillFinalize,
      WillUpdate, WillDelete, WillMaintain, Observes;
    NamedWill(cfg, o, rs);
  }

  lemma StageAfterChange(cfg: Config, rs: Replies, o: Object, u: World, e: Event)
    requires Along(cfg, rs, o, u) && Undisturbed(rs, u, e) && !e.Tick? && !e.Vanish?
    requires u.pc.Deleting? || u.pc.Updating?
    ensures Before(cfg, o, rs, Next(cfg, u, e).pc) == Before(cfg, o, rs, u.pc) + [u.pc]
  {
    hide May, MayDelete, OnHold, Unfinished, Recent, MayOnlyObserve, AsNamed, AsHeld, Plan, Stores, Write, Commit,
      Nameless, Keeping, OnGot, OnCalled, OnWrote, OnProceed, OnReported, Returns, Reports, Stages, Trusts, Looking,
      WillFinalize;
    NamedWill(cfg, o, rs);
    if u.pc.Updating? { UpdateStages(cfg, rs, o); } else { DeleteStages(cfg, rs, o); }
  }

  lemma DeleteStages(cfg: Config, rs: Replies, o: Object)
    requires WillDelete(cfg, o, rs)
    ensures Stages(cfg, o, rs) == Looking(cfg, o) + [Deleting]
  {
    hide May, MayDelete, OnHold, Unfinished, Recent, MayOnlyObserve, Nameless, Looking, Keeping, CreationStages;
  }

  /** Every answer leads to the stage after the one it answers. */
  lemma NextStage(cfg: Config, rs: Replies, o: Object, u: World, e: Event)
    requires Along(cfg, rs, o, u) && u.hist != [] && Undisturbed(rs, u, e) && !u.pc.Idle?
    ensures Before(cfg, o, rs, Next(cfg, u, e).pc)
            == Before(cfg, o, rs, u.pc) + if e.Tick? || e.Vanish? then [] else [u.pc]
  {
    hide Along, Before, OnGot, OnWrote, OnCalled, OnReported, Decide, Record, Commit, OnCreated, OnCreateFailed,
      OnDeleted, OnUpdated;
    if !e.Tick? && !e.Vanish? {
      match u.pc
      case Getting =>
        StageAfterGet(cfg, rs, o, u);
        NothingBefore(cfg, rs, o);
      case Deciding =>
        StageAfterDeciding(cfg, rs, o, u);
        LookingIsAll(cfg, rs, o);
      case _ =>
        if u.pc.Publishing? { StageAfterPublishing(cfg, rs, o, u); }
        else if e.Called? { StageAfterCall(cfg, rs, o, u); }
        else if u.pc.Finalizing? || u.pc.WritingPending? || u.pc.WritingCritical? {
          StageAfterLastWrite(cfg, rs, o, u);
        }
        else if e.Wrote? { StageAfterWrite(cfg, rs, o, u); }
        else if e.Deleted? || e.Updated? { StageAfterChange(cfg, rs, o, u, e); }
        else { StageAfterAnswer(cfg, rs, o, u, e); }
    }
  }

  lemma NothingBefore(cfg: Config, rs: Replies, o: Object)
    ensures Before(cfg, o, rs, Getting) == []
  {}

  lemma LookingIsAll(cfg: Config, rs: Replies, o: Object)
    ensures Looking(cfg, o) == Before(cfg, o, rs, Deciding) + [Deciding]
  {}

  lemma {:induction false} RunStages(cfg: Config, rs: Replies, o: Object, u: World, es: seq<Event>)
    requires Along(cfg, rs, o, u) && UndisturbedRun(cfg, rs, u, es)
    ensures Before(cfg, o, rs, Exec(cfg, u, es).pc) == Before(cfg, o, rs, u.pc) + Passed(cfg, u, es)
    decreases |es|
  {
    hide Along, Next, Before, Undisturbed;
    if es != [] {
      var v := Next(cfg, u, es[0]);
      StepAlong(cfg, rs, o, u, es[0]);
      RunStages(cfg, rs, o, v, es[1..]);
      StageCounted(cfg, rs, o, u, es[0]);
    }
  }

  lemma StageCounted(cfg: Config, rs: Replies, o: Object, u: World, e: Event)
    requires Along(cfg, rs, o, u) && u.hist != [] && Undisturbed(rs, u, e)
    ensures var v := Next(cfg, u, e);
            Before(cfg, o, rs, v.pc) == Before(cfg, o, rs, u.pc) + if v.pc == u.pc then [] else [u.pc]
  {
    hide Along, Next, Before, Undisturbed;
    if u.pc.Idle? {
      IdleWaits(cfg, rs, u, e);
    } else {
      NextStage(cfg, rs, o, u, e);
      EveryAnswerCounts(cfg, rs, o, u, e);
    }
  }

  lemma IdleWaits(cfg: Config, rs: Replies, u: World, e: Event)
    requires u.hist != [] && Undisturbed(rs, u, e) && u.pc.Idle?
    ensures Next(cfg, u, e).pc.Idle?
  {}

  /** The stages an undisturbed reconcile passes through, from first to last. */
  lemma StagesExactly(cfg: Config, rs: Replies, w: World, es: seq<Event>)
    requires w.hist != [] && !w.gone && !(Current(w).deleted && Current(w).finalizers == {}) && w.pc.Idle?
    requires UndisturbedRun(cfg, rs, Next(cfg, w, Start), es)
    requires Exec(cfg, Next(cfg, w, Start), es).pc.Idle?
    ensures var o := Current(w);
            Passed(cfg, Next(cfg, w, Start), es)
            == Stages(cfg, o, rs) + if Reports(cfg, o, rs) then [Reporting(Returns(cfg, o, rs))] else []
  {
    hide Exec, UndisturbedRun, Plan, AsNamed, AsHeld, Stores, Stages, Passed, Reports, Returns;
    RunStages(cfg, rs, Current(w), Next(cfg, w, Start), es);
  }

  // ---- any reconcile of any run ----

  /** An object is gone exactly if it was deleted and has no finalizers. */
  predicate GoneOk(w: World) {
    w.hist != [] && (w.gone <==> Current(w).deleted && Current(w).finalizers == {})
  }

  lemma WriteGone(w: World, o: Object, f: Fault)
    requires GoneOk(w)
    ensures GoneOk(Write(w, o, f).w)
  {}

  lemma SameGone(w: World, v: World)
    requires GoneOk(w) && v.hist == w.hist && v.gone == w.gone
    ensures GoneOk(v)
  {}

  lemma WroteGone(cfg: Config, w: World, f: Fault)
    requires GoneOk(w)
    ensures GoneOk(OnWrote(cfg, w, f))
  {
    hide Write, OnWrote, GoneOk, Sent;
    WroteIsWrite(cfg, w, f);
    WriteGone(w, Sent(cfg, w), f);
    if OnWrote(cfg, w, f) != w { SameGone(Write(w, Sent(cfg, w), f).w, OnWrote(cfg, w, f)); }
  }

  lemma StepGone(cfg: Config, w: World, e: Event)
    requires GoneOk(w)
    ensures GoneOk(Next(cfg, w, e))
  {
    hide OnWrote, Write, Policy, CreateIncomplete, SucceededDuring, IsPaused, Commit;
    match e
    case Wrote(f) => WroteGone(cfg, w, f);
    case Edit(o) => CommitGone(w, o);
    case Reported(f, status) => WriteGone(w, Current(w).(status := status), f);
    case _ => SameGone(w, Next(cfg, w, e));
  }

  lemma CommitGone(w: World, o: Object)
    requires GoneOk(w)
    ensures GoneOk(Commit(w, o, 0))
  {}

  lemma {:induction false} RunGone(cfg: Config, w: World, es: seq<Event>)
    requires GoneOk(w)
    ensures GoneOk(Exec(cfg, w, es))
    decreases |es|
  {
    hide GoneOk, Next;
    if es != [] {
      StepGone(cfg, w, es[0]);
      RunGone(cfg, Next(cfg, w, es[0]), es[1..]);
    }
  }

  /** After any run from a new object, an undisturbed reconcile does what the table
      says about the object as it then is. */
  lemma EveryReconcileIsPlanned(cfg: Config, rs: Replies, w: World, before: seq<Event>, es: seq<Event>)
    requires Initial(w)
    requires var v := Exec(cfg, w, before);
             && !v.gone && v.pc.Idle? && UndisturbedRun(cfg, rs, Next(cfg, v, Start), es)
             && Exec(cfg, Next(cfg, v, Start), es).pc.Idle?
    ensures var v := Exec(cfg, w, before);
            var u := Exec(cfg, Next(cfg, v, Start), es);
            && v.hist != [] && u.hist != []
            && Effect(u.calls, u.result, Current(u)) == Plan(cfg, Current(v), rs)
  {
    hide Exec, UndisturbedRun, Plan, Next;
    RunGone(cfg, w, before);
    ReconcileIsPlanned(cfg, rs, Exec(cfg, w, before), es);
  }

  /** Exactly when which call is made: to create what is missing, to update what is
      not up to date, and to delete what is there, each where the object allows it.
      A resource that is up to date is left alone until the next poll. */
  lemma CallsExactly(cfg: Config, rs: Replies, w: World, before: seq<Event>, es: seq<Event>)
    requires Initial(w)
    requires var v := Exec(cfg, w, before);
             && !v.gone && v.pc.Idle? && UndisturbedRun(cfg, rs, Next(cfg, v, Start), es)
             && Exec(cfg, Next(cfg, v, Start), es).pc.Idle?
    ensures var v := Exec(cfg, w, before);
            var u := Exec(cfg, Next(cfg, v, Start), es);
            && v.hist != []
            && var n := AsNamed(cfg, Current(v));
               && (Creates in u.calls <==> WillCreate(cfg, n, rs))
               && (Updates in u.calls <==> WillUpdate(cfg, n, rs))
               && (Deletes in u.calls <==> WillDelete(cfg, n, rs))
               && |u.calls| <= 1
               && (WillMaintain(cfg, n, rs) && rs.seen.upToDate ==>
                     u.calls == [] && u.result == Result(false, cfg.poll, false))
  {
    hide Exec, UndisturbedRun, Next, OnHold, MayDelete, AsNamed, Stores, Unfinished, Recent, MayOnlyObserve;
    EveryReconcileIsPlanned(cfg, rs, w, before, es);
  }
}
