/** The managed reconciler as a step system: `Reconcile` in
`pkg/reconciler/managed/reconciler.go`, with the annotation updater, the
initializer and the finalizer it calls.

A state holds the history of the object in the API server, the external system,
the clock, and the reconcile that is under way, if any: where it is, its copy of
the object, and what it has learnt. An event is either something the environment
does (time passes, somebody edits the object, an external resource vanishes, the
process crashes) or the reply to the call the reconcile is waiting for. A call may
fail, or take effect and still report an error. Reads may return any past version.
`Next` is total: an event that does not fit the state changes nothing.
 */
module Protocol {
  import opened Text
  import opened Meta
  import opened Policies

  const FINALIZER := "finalizer.managedresource.crossplane.io"

  /** What the reconciler sees of a managed resource. */
  datatype Object = Object(
    notes: Notes,
    finalizers: set<string>,
    deleted: bool,
    policies: set<Action>,
    deletionPolicy: DeletionPolicy,
    spec: int,
    status: int)

  /** How the reconciler is set up. `delay` and `lag` describe its environment:
      how long after a creation Observe may still miss the new resource, and how
      long a reconcile may take between an Observe and looking at the clock. */
  datatype Config = Config(
    legacy: bool,
    enabled: bool,
    supported: seq<set<Action>>,
    deterministic: bool,
    nameAsExternalName: bool,
    objectName: string,
    grace: nat,
    poll: nat,
    delay: nat,
    lag: nat)

  function Policy(cfg: Config, o: Object): Resolver {
    Resolver(cfg.legacy, cfg.enabled, cfg.supported, o.policies, o.deletionPolicy)
  }

  // ---- states ----

  /** A stored version and who wrote it: the k-th reconcile, or 0 for others. */
  datatype Version = Version(obj: Object, writer: nat)

  /** A call of external Create: the pending stamp and version it was made with,
      the name of the new resource unless it failed, and when. */
  datatype Creation = Creation(stamp: nat, version: nat, name: Option<string>, at: nat)

  datatype Observation = Observation(present: bool, upToDate: bool, late: bool)

  datatype Mutation = Creates | Updates | Deletes

  /** `reconcile.Result` and whether an error is returned with it. */
  datatype Result = Result(requeue: bool, after: nat, err: bool)

  const REQUEUE := Result(true, 0, false)
  const QUIET := Result(false, 0, false)

  datatype Stage = BeforeCreate | AfterCreate | AfterUpdate

  /** The call a reconcile is waiting for, or the local step it is about to take. */
  datatype Pc =
    | Idle
    | Getting
    | Unpublishing(orphan: bool)
    | Finalizing(orphan: bool)
    | Initializing
    | Resolving
    | Connecting
    | Observing
    | Deciding
    | Deleting
    | Publishing(stage: Stage)
    | AddingFinalizer
    | Stamping
    | WritingPending
    | Creating
    | Recording(success: bool)
    | WritingCritical(success: bool)
    | RereadingCritical(success: bool)
    | LateInitializing
    | Updating
    | Reporting(res: Result)

  datatype World = World(
    // the API server
    hist: seq<Version>,
    gone: bool,
    // the external system and the clock
    live: set<string>,
    creates: seq<Creation>,
    now: nat,
    // the reconcile under way
    round: nat,
    pc: Pc,
    rv: nat,
    local: Object,
    checked: nat,
    seen: Observation,
    seenAt: nat,
    captured: Notes,
    calls: seq<Mutation>,
    // what the last finished reconcile returned
    result: Result)

  function Current(w: World): Object
    requires w.hist != []
  {
    w.hist[|w.hist| - 1].obj
  }

  // ---- the API server ----

  /** Stores a version. Storing what is there already makes no new version; an
      object that is deleted and has no finalizers left goes away. */
  function Commit(w: World, o: Object, writer: nat): World {
    if w.gone || w.hist == [] || o == Current(w) then w
    else w.(hist := w.hist + [Version(o, writer)], gone := o.deleted && o.finalizers == {})
  }

  /** What goes wrong with a write: nothing, the request is lost, or it takes
      effect and the reply is lost. */
  datatype Fault = NoFault | Lost | Ambiguous

  datatype WriteResult = Landed | Conflicted | Missing | Errored

  datatype Attempt = Attempt(w: World, result: WriteResult)

  /** `client.Update`: compare and swap on the resource version. */
  function Write(w: World, o: Object, f: Fault): Attempt {
    if f == Lost then Attempt(w, Errored)
    else if w.gone then Attempt(w, Missing)
    else if w.rv + 1 != |w.hist| then Attempt(w, Conflicted)
    else
      var c := Commit(w, o, w.round);
      if f == Ambiguous then Attempt(c, Errored)
      else Attempt(c.(rv := |c.hist| - 1, local := o), Landed)
  }

  // ---- events ----

  datatype Read = Read(version: nat) | ReadMissing | ReadError

  datatype Outcome = Succeeds | Conflicts | Fails

  datatype Event =
    // the environment
    | Tick(d: nat)
    | Edit(obj: Object)
    | Vanish(name: string)
    | Start
    | Crash
    // replies to the call in progress
    | Got(read: Read)
    | Wrote(fault: Fault)
    | Reported(fault: Fault, status: int)
    | Called(outcome: Outcome)
    | Observed(seen: Observation, spec: int)
    | ObserveFailed(conflict: bool)
    | Created(name: string, spec: int)
    | CreateFailed
    | Deleted(effective: bool)
    | Updated(ok: bool)
    | GaveUp(conflict: bool)
    // local steps that look at the clock
    | Proceed

  // ---- what the code does between two calls ----

  function Return(w: World, res: Result): World {
    w.(pc := Idle, result := res)
  }

  /** Update the status, then return. */
  function Report(w: World, res: Result): World {
    w.(pc := Reporting(res))
  }

  function Goto(w: World, pc: Pc): World {
    w.(pc := pc)
  }

  function AfterGet(cfg: Config, w: World): World {
    var p := Policy(cfg, w.local);
    if IsPaused(w.local.notes) || p.Paused() then Report(w, QUIET)
    else if !p.Valid() then Report(w, QUIET)
    else if w.local.deleted && !p.ShouldDelete() then Goto(w, Unpublishing(true))
    else if cfg.nameAsExternalName && ExternalName(w.local.notes) == "" then Goto(w, Initializing)
    else AfterInit(cfg, w)
  }

  function Named(cfg: Config, o: Object): Object {
    o.(notes := o.notes.(name := Some(cfg.objectName)))
  }

  function AfterInit(cfg: Config, w: World): World {
    var w := w.(checked := w.rv);
    if CreateIncomplete(w.local.notes) && !cfg.deterministic then Report(w, QUIET)
    else Goto(w, if w.local.deleted then Connecting else Resolving)
  }

  function Decide(cfg: Config, w: World): World {
    var p := Policy(cfg, w.local);
    if !w.seen.present && p.ShouldOnlyObserve() then Report(w, REQUEUE)
    else if !w.seen.present && SucceededDuring(w.local.notes, w.now, cfg.grace) then Return(w, REQUEUE)
    else if w.local.deleted then Goto(w, if w.seen.present && p.ShouldDelete() then Deleting else Unpublishing(false))
    else Goto(w, Publishing(BeforeCreate))
  }

  function AfterUnpublish(w: World, orphan: bool): World {
    if FINALIZER in w.local.finalizers then Goto(w, Finalizing(orphan)) else Return(w, QUIET)
  }

  function AfterPublish(cfg: Config, w: World): World {
    if FINALIZER in w.local.finalizers then AfterFinalizer(cfg, w) else Goto(w, AddingFinalizer)
  }

  function AfterFinalizer(cfg: Config, w: World): World {
    var p := Policy(cfg, w.local);
    if !w.seen.present && p.ShouldCreate() then Goto(w, Stamping)
    else if w.seen.late && p.ShouldLateInitialize() then Goto(w, LateInitializing)
    else AfterLateInit(cfg, w)
  }

  function AfterLateInit(cfg: Config, w: World): World {
    if w.seen.upToDate || !Policy(cfg, w.local).ShouldUpdate() then Report(w, Result(false, cfg.poll, false))
    else Goto(w, Updating)
  }

  // ---- replies ----

  function OnGot(cfg: Config, w: World, r: Read): World {
    match w.pc
    case Getting =>
      (match r
       case ReadMissing => Return(w, QUIET)
       case ReadError => Return(w, Result(false, 0, true))
       case Read(i) =>
         if i < |w.hist| then AfterGet(cfg, w.(rv := i, local := w.hist[i].obj)) else w)
    case RereadingCritical(s) =>
      (match r
       case Read(i) =>
         if i < |w.hist| then
           var o := w.hist[i].obj;
           w.(pc := WritingCritical(s), rv := i, local := o.(notes := AddAnnotations(o.notes, w.captured)))
         else w
       case _ => Goto(w, WritingCritical(s)))
    case _ => w
  }

  /** Most failed calls: requeue silently on a conflict, report anything else. */
  function OnFailure(w: World, conflict: bool): World {
    if conflict then Return(w, REQUEUE) else Report(w, REQUEUE)
  }

  function OnWrote(cfg: Config, w: World, f: Fault): World {
    match w.pc
    case Initializing =>
      var a := Write(w, Named(cfg, w.local), f);
      if a.result == Landed then AfterInit(cfg, a.w) else OnFailure(a.w, a.result == Conflicted)
    case Finalizing(_) =>
      var a := Write(w, w.local.(finalizers := w.local.finalizers - {FINALIZER}), f);
      if a.result == Landed || a.result == Missing then Return(a.w, QUIET) else OnFailure(a.w, a.result == Conflicted)
    case AddingFinalizer =>
      var a := Write(w, w.local.(finalizers := w.local.finalizers + {FINALIZER}), f);
      if a.result == Landed then AfterFinalizer(cfg, a.w) else OnFailure(a.w, a.result == Conflicted)
    case WritingPending =>
      var a := Write(w, w.local, f);
      if a.result == Landed then Goto(a.w, Creating) else OnFailure(a.w, a.result == Conflicted)
    case WritingCritical(s) =>
      var a := Write(w, w.local, f);
      if a.result == Landed then (if s then Goto(a.w, Publishing(AfterCreate)) else Report(a.w, REQUEUE))
      else if a.result == Conflicted then Goto(a.w, RereadingCritical(s))
      else a.w
    case LateInitializing =>
      var a := Write(w, w.local, f);
      if a.result == Landed then AfterLateInit(cfg, a.w) else Report(a.w, REQUEUE)
    case _ => w
  }

  /** The status update that ends most reconciles. It stores nothing but the
      status; a conflict turns into a silent requeue. */
  function OnReported(w: World, res: Result, f: Fault, status: int): World {
    if w.hist == [] then w
    else
      var a := Write(w, Current(w).(status := status), f);
      match a.result
      case Landed => Return(a.w, res)
      case Conflicted => Return(a.w, REQUEUE)
      case _ => Return(a.w, res.(err := true))
  }

  function OnCalled(cfg: Config, w: World, o: Outcome): World {
    match w.pc
    case Unpublishing(orphan) => if o == Succeeds then AfterUnpublish(w, orphan) else OnFailure(w, o == Conflicts)
    case Resolving => if o == Succeeds then Goto(w, Connecting) else OnFailure(w, o == Conflicts)
    case Connecting => if o == Succeeds then Goto(w, Observing) else OnFailure(w, o == Conflicts)
    case Publishing(BeforeCreate) => if o == Succeeds then AfterPublish(cfg, w) else OnFailure(w, o == Conflicts)
    case Publishing(AfterCreate) => if o == Succeeds then Report(w, REQUEUE) else OnFailure(w, o == Conflicts)
    case Publishing(AfterUpdate) => Report(w, if o == Succeeds then Result(false, cfg.poll, false) else REQUEUE)
    case _ => w
  }

  /** Create returned without an error: the resource exists under `name`, which
      the annotation now carries. */
  function OnCreated(w: World, name: string, spec: int): World {
    w.(pc := Recording(true),
       live := w.live + {name},
       creates := w.creates + [Creation(Seconds(w.local.notes.pending), w.rv, Some(name), w.now)],
       local := w.local.(notes := w.local.notes.(name := Some(name)), spec := spec),
       calls := w.calls + [Creates])
  }

  function OnCreateFailed(w: World): World {
    w.(pc := Recording(false),
       creates := w.creates + [Creation(Seconds(w.local.notes.pending), w.rv, None, w.now)],
       calls := w.calls + [Creates])
  }

  /** Stamp the outcome and capture the annotations to be persisted. */
  function Record(w: World, success: bool): World {
    var n := if success then w.local.notes.(succeeded := Some(Stamp(w.now))) else w.local.notes.(failed := Some(Stamp(w.now)));
    w.(pc := WritingCritical(success), local := w.local.(notes := n), captured := n)
  }

  function OnDeleted(w: World, effective: bool): World {
    Report(w.(live := if effective then w.live - {ExternalName(w.local.notes)} else w.live, calls := w.calls + [Deletes]), REQUEUE)
  }

  function OnUpdated(w: World, ok: bool): World {
    var w := w.(calls := w.calls + [Updates]);
    if ok then Goto(w, Publishing(AfterUpdate)) else Report(w, REQUEUE)
  }

  function OnGaveUp(w: World, conflict: bool): World {
    match w.pc
    case WritingCritical(s) => if s then OnFailure(w, conflict) else Report(w, REQUEUE)
    case RereadingCritical(s) => if s then OnFailure(w, conflict) else Report(w, REQUEUE)
    case _ => w
  }

  function OnProceed(cfg: Config, w: World): World {
    match w.pc
    case Deciding => Decide(cfg, w)
    case Stamping => w.(pc := WritingPending, local := w.local.(notes := w.local.notes.(pending := Some(Stamp(w.now)))))
    case Recording(s) => Record(w, s)
    case _ => w
  }

  function Next(cfg: Config, w: World, e: Event): World {
    match e
    case Tick(d) => w.(now := w.now + d)
    case Edit(o) => Commit(w, o, 0)
    case Vanish(n) => w.(live := w.live - {n})
    case Start => if w.pc == Idle then w.(pc := Getting, round := w.round + 1, calls := []) else w
    case Crash => Goto(w, Idle)
    case Got(r) => OnGot(cfg, w, r)
    case Wrote(f) => OnWrote(cfg, w, f)
    case Reported(f, status) => if w.pc.Reporting? then OnReported(w, w.pc.res, f, status) else w
    case Called(o) => OnCalled(cfg, w, o)
    case Observed(seen, spec) =>
      if w.pc == Observing then w.(pc := Deciding, seen := seen, seenAt := w.now, local := w.local.(spec := spec)) else w
    case ObserveFailed(conflict) => if w.pc == Observing then OnFailure(w, conflict) else w
    case Created(n, spec) => if w.pc == Creating then OnCreated(w, n, spec) else w
    case CreateFailed => if w.pc == Creating then OnCreateFailed(w) else w
    case Deleted(effective) => if w.pc == Deleting then OnDeleted(w, effective) else w
    case Updated(ok) => if w.pc == Updating then OnUpdated(w, ok) else w
    case GaveUp(conflict) => OnGaveUp(w, conflict)
    case Proceed => OnProceed(cfg, w)
  }

  function Exec(cfg: Config, w: World, es: seq<Event>): World
    decreases |es|
  {
    if es == [] then w else Exec(cfg, Next(cfg, w, es[0]), es[1..])
  }

  // ---- where runs start and what the environment keeps to ----

  /** A new object: never created externally, not deleted, without our finalizer.
      Any external resources may exist. */
  predicate Initial(w: World) {
    && |w.hist| == 1
    && w.hist[0].obj.notes.pending == None
    && w.hist[0].obj.notes.succeeded == None
    && w.hist[0].obj.notes.failed == None
    && !w.hist[0].obj.deleted
    && FINALIZER !in w.hist[0].obj.finalizers
    && !w.gone && w.creates == [] && w.pc == Idle && w.round == 0 && w.calls == []
  }

  predicate SameMarks(a: Notes, b: Notes) {
    a.name == b.name && a.pending == b.pending && a.succeeded == b.succeeded && a.failed == b.failed
  }

  /** Others leave the reconciler's annotations and its finalizer alone; the API
      server does not undelete and takes no new finalizers after a deletion. */
  predicate Polite(w: World, e: Event) {
    e.Edit? && w.hist != [] ==>
      && SameMarks(e.obj.notes, Current(w).notes)
      && (FINALIZER in e.obj.finalizers <==> FINALIZER in Current(w).finalizers)
      && (Current(w).deleted ==> e.obj.deleted && e.obj.finalizers <= Current(w).finalizers)
  }

  /** A pending stamp names a later second than the outcome stamps before it. */
  predicate Timely(w: World, e: Event) {
    e.Proceed? && w.pc == Stamping ==> Stamp(w.now) > Latest(w.local.notes)
  }

  /** Observe tells whether the named resource exists, except that it may miss
      one created less than `delay` ago. */
  predicate Truthful(cfg: Config, w: World, reported: bool) {
    || reported == (w.local.notes.name.Some? && w.local.notes.name.value in w.live)
    || exists k :: 0 <= k < |w.creates| && w.creates[k].name.Some? && w.creates[k].name == w.local.notes.name
                   && w.now < w.creates[k].at + cfg.delay
  }

  /** Create assigns a name, perhaps one that was used before, Observe is truthful,
      and the clock is read at most `lag` after an Observe. */
  predicate Faithful(cfg: Config, w: World, e: Event) {
    && (e.Observed? && w.pc == Observing ==> Truthful(cfg, w, e.seen.present))
    && (e.Created? && w.pc == Creating ==> e.name != "")
    && (e.Tick? && w.pc == Deciding ==> w.now + e.d <= w.seenAt + cfg.lag)
  }

  predicate SafeRun(cfg: Config, w: World, es: seq<Event>)
    decreases |es|
  {
    es != [] ==> Polite(w, es[0]) && Timely(w, es[0]) && SafeRun(cfg, Next(cfg, w, es[0]), es[1..])
  }

  predicate FaithfulRun(cfg: Config, w: World, es: seq<Event>)
    decreases |es|
  {
    es != [] ==>
      && Polite(w, es[0]) && Timely(w, es[0]) && Faithful(cfg, w, es[0])
      && FaithfulRun(cfg, Next(cfg, w, es[0]), es[1..])
  }
}
