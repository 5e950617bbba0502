/** Deletion gets done: when every call succeeds, reads are fresh, Observe tells the
truth and Delete takes effect, a deleted object loses its finalizer within two
reconciles, and each of them ends. */
module ProtocolLiveness {
  import opened Meta
  import opened Protocol
  import opened ProtocolRound

  /** Whether the resource the notes name exists. */
  predicate Present(n: Notes, live: set<string>) {
    n.name.Some? && n.name.value in live
  }

  /** Nobody interferes and nothing fails. Time may pass, and external resources
      may vanish by themselves. */
  predicate Smooth(w: World, e: Event) {
    match e
    case Tick(_) => true
    case Vanish(_) => true
    case Start => true
    case Proceed => true
    case Got(r) => w.hist != [] && r == (if w.gone then ReadMissing else Read(|w.hist| - 1))
    case Wrote(f) => f == NoFault
    case Reported(f, _) => f == NoFault
    case Called(o) => o == Succeeds
    case Observed(seen, _) => seen.present == Present(w.local.notes, w.live)
    case Deleted(effective) => effective
    case _ => false
  }

  predicate SmoothRun(cfg: Config, w: World, es: seq<Event>)
    decreases |es|
  {
    es != [] ==> Smooth(w, es[0]) && SmoothRun(cfg, Next(cfg, w, es[0]), es[1..])
  }

  /** Deleted, neither paused nor with an invalid policy, to be deleted externally
      too, with no creation of unknown outcome, and past the grace period. */
  predicate Doomed(cfg: Config, o: Object, now: nat) {
    && o.deleted && Active(cfg, o) && Policy(cfg, o).ShouldDelete()
    && (cfg.deterministic || !CreateIncomplete(o.notes))
    && !SucceededDuring(o.notes, now, cfg.grace)
  }

  // ---- the invariant: what is left to do in the k-th reconcile ----

  predicate OnPath(pc: Pc) {
    || pc.Idle? || pc.Getting? || pc.Initializing? || pc.Connecting? || pc.Observing? || pc.Deciding?
    || pc.Deleting? || pc == Unpublishing(false) || pc == Finalizing(false) || pc.Reporting?
  }

  /** The copy is of the newest version and differs from it at most in the spec. */
  predicate UpToDate(w: World) {
    !w.pc.Idle? && !w.pc.Getting? ==>
      && w.rv + 1 == |w.hist| && w.hist != []
      && w.local == Current(w).(spec := w.local.spec)
  }

  predicate HasName(cfg: Config, n: Notes) {
    !cfg.nameAsExternalName || ExternalName(n) != ""
  }

  /** The external resource is gone, and the object will not be renamed. */
  predicate Settled(cfg: Config, w: World)
    requires w.hist != []
  {
    HasName(cfg, Current(w).notes) && !Present(Current(w).notes, w.live)
  }

  predicate Phase(cfg: Config, first: nat, w: World)
    requires w.hist != []
  {
    && first <= w.round <= first + 2
    && (w.pc.Idle? ==> w.round <= first + 1)
    && (!w.pc.Idle? ==> w.round > first)
    && ((w.pc.Idle? && w.round > first) || w.round == first + 2 || w.pc.Reporting? ==> Settled(cfg, w))
    && (w.pc.Connecting? || w.pc.Observing? || w.pc.Deciding? || w.pc.Deleting? ==> HasName(cfg, Current(w).notes))
    && (w.pc.Deciding? && w.round == first + 2 ==> !w.seen.present)
    && (w.pc.Initializing? || w.pc.Deleting? || w.pc.Reporting? ==> w.round == first + 1)
    && (w.pc.Finalizing? ==> FINALIZER in Current(w).finalizers)
  }

  predicate Progress(cfg: Config, first: nat, w: World) {
    && w.hist != []
    && (w.gone || (OnPath(w.pc) && UpToDate(w) && Doomed(cfg, Current(w), w.now) && (Finalized(w) || Phase(cfg, first, w))))
  }

  // ---- steps ----

  /** What a write does when nothing fails. */
  lemma SmoothWrite(w: World, o: Object)
    requires w.hist != [] && !w.gone && w.rv + 1 == |w.hist|
    ensures var a := Write(w, o, NoFault);
            && a.result == Landed && a.w.hist != [] && Current(a.w) == o && a.w.local == o && a.w.rv + 1 == |a.w.hist|
            && a.w.now == w.now && a.w.live == w.live && a.w.round == w.round && a.w.pc == w.pc && a.w.seen == w.seen
  {}

  lemma DoomedSame(cfg: Config, o: Object, q: Object, now: nat, later: nat)
    requires Doomed(cfg, o, now) && now <= later
    requires q.deleted == o.deleted && q.policies == o.policies && q.deletionPolicy == o.deletionPolicy
    requires q.notes == o.notes || q.notes == o.notes.(name := q.notes.name)
    ensures Doomed(cfg, q, later)
  {}

  lemma GoneStays(cfg: Config, w: World, e: Event)
    requires w.gone && w.hist != []
    ensures Next(cfg, w, e).gone && Next(cfg, w, e).hist != []
  {
    hide Policy, SucceededDuring, CreateIncomplete, IsPaused, AddAnnotations;
  }

  lemma SmoothRead(cfg: Config, first: nat, w: World)
    requires Progress(cfg, first, w) && w.pc.Getting? && !w.gone
    ensures Progress(cfg, first, OnGot(cfg, w, Read(|w.hist| - 1)))
  {
    hide SucceededDuring, CreateIncomplete, IsPaused;
  }

  lemma SmoothInitialize(cfg: Config, first: nat, w: World)
    requires cfg.objectName != "" && Progress(cfg, first, w) && w.pc.Initializing? && !w.gone
    ensures Progress(cfg, first, OnWrote(cfg, w, NoFault))
  {
    hide Write, SucceededDuring, CreateIncomplete, IsPaused, Doomed;
    var o := Named(cfg, w.local);
    SmoothWrite(w, o);
    DoomedSame(cfg, Current(w), o, w.now, w.now);
    StaysInit(cfg, Write(w, o, NoFault).w);
  }

  lemma StaysInit(cfg: Config, w: World)
    requires w.hist != [] && Doomed(cfg, w.local, w.now)
    ensures AfterInit(cfg, w) == w.(checked := w.rv, pc := Connecting)
  {}

  lemma SmoothFinalize(cfg: Config, first: nat, w: World)
    requires Progress(cfg, first, w) && w.pc.Finalizing? && !w.gone
    ensures Progress(cfg, first, OnWrote(cfg, w, NoFault)) && Finalized(OnWrote(cfg, w, NoFault))
  {
    hide Write, SucceededDuring, CreateIncomplete, IsPaused, Doomed;
    var o := w.local.(finalizers := w.local.finalizers - {FINALIZER});
    SmoothWrite(w, o);
    DoomedSame(cfg, Current(w), o, w.now, w.now);
  }

  lemma SmoothReport(cfg: Config, first: nat, w: World, status: int)
    requires Progress(cfg, first, w) && w.pc.Reporting? && !w.gone
    ensures Progress(cfg, first, OnReported(w, w.pc.res, NoFault, status))
  {
    hide Write, SucceededDuring, CreateIncomplete, IsPaused, Doomed;
    var o := Current(w).(status := status);
    SmoothWrite(w, o);
    DoomedSame(cfg, Current(w), o, w.now, w.now);
  }

  lemma SmoothDecide(cfg: Config, first: nat, w: World)
    requires Progress(cfg, first, w) && w.pc.Deciding? && !w.gone
    ensures Progress(cfg, first, OnProceed(cfg, w))
  {
    hide SucceededDuring, CreateIncomplete, IsPaused;
    assert w.local.notes == Current(w).notes;
  }

  lemma SmoothCalled(cfg: Config, first: nat, w: World)
    requires Progress(cfg, first, w) && !w.gone
    ensures Progress(cfg, first, OnCalled(cfg, w, Succeeds))
  {
    hide Doomed, AfterPublish;
  }

  lemma SmoothOther(cfg: Config, first: nat, w: World, e: Event)
    requires Progress(cfg, first, w) && !w.gone && Smooth(w, e)
    requires e.Tick? || e.Vanish? || e.Start? || e.Observed? || e.Deleted?
    ensures Progress(cfg, first, Next(cfg, w, e))
  {
    hide Doomed, OnGot, OnWrote, OnCalled, OnProceed, OnReported, Commit;
    DoomedSame(cfg, Current(w), Current(w), w.now, Next(cfg, w, e).now);
  }

  lemma StepProgress(cfg: Config, first: nat, w: World, e: Event)
    requires cfg.objectName != "" && Progress(cfg, first, w) && Smooth(w, e)
    ensures Progress(cfg, first, Next(cfg, w, e))
  {
    hide Progress, OnWrote, OnGot, OnCalled, OnReported, OnProceed, Commit, OnDeleted;
    ProgressParts(cfg, first, w);
    if w.gone {
      GoneStays(cfg, w, e);
      GoneProgress(cfg, first, Next(cfg, w, e));
    } else {
      match e
      case Got(r) => SmoothGot(cfg, first, w);
      case Wrote(f) => SmoothWrote(cfg, first, w);
      case Called(o) => SmoothCalled(cfg, first, w);
      case Reported(f, status) => if w.pc.Reporting? { SmoothReport(cfg, first, w, status); }
      case Proceed => SmoothProceed(cfg, first, w);
      case _ => SmoothOther(cfg, first, w, e);
    }
  }

  lemma ProgressParts(cfg: Config, first: nat, w: World)
    requires Progress(cfg, first, w)
    ensures w.hist != [] && (w.gone || OnPath(w.pc))
  {}

  lemma GoneProgress(cfg: Config, first: nat, w: World)
    requires w.hist != [] && w.gone
    ensures Progress(cfg, first, w)
  {}

  lemma SmoothGot(cfg: Config, first: nat, w: World)
    requires Progress(cfg, first, w) && !w.gone
    ensures Progress(cfg, first, OnGot(cfg, w, Read(|w.hist| - 1)))
  {
    hide Doomed, AfterGet;
    if w.pc.Getting? { SmoothRead(cfg, first, w); }
  }

  lemma SmoothWrote(cfg: Config, first: nat, w: World)
    requires cfg.objectName != "" && Progress(cfg, first, w) && !w.gone
    ensures Progress(cfg, first, OnWrote(cfg, w, NoFault))
  {
    hide Doomed, Write;
    if w.pc.Initializing? { SmoothInitialize(cfg, first, w); }
    else if w.pc.Finalizing? { SmoothFinalize(cfg, first, w); }
  }

  lemma SmoothProceed(cfg: Config, first: nat, w: World)
    requires Progress(cfg, first, w) && !w.gone
    ensures Progress(cfg, first, OnProceed(cfg, w))
  {
    hide Doomed, Decide;
    if w.pc.Deciding? { SmoothDecide(cfg, first, w); }
  }

  // ---- the claim ----

  lemma {:induction false} RunProgress(cfg: Config, first: nat, w: World, es: seq<Event>)
    requires cfg.objectName != "" && Progress(cfg, first, w) && SmoothRun(cfg, w, es)
    ensures Progress(cfg, first, Exec(cfg, w, es))
    decreases |es|
  {
    hide Progress, Next, Smooth;
    if es != [] {
      StepProgress(cfg, first, w, es[0]);
      RunProgress(cfg, first, Next(cfg, w, es[0]), es[1..]);
    }
  }

  /** When two reconciles of a doomed object have run smoothly, our finalizer is
      removed; a third never finds it. */
  lemma FinalizedInTwo(cfg: Config, w: World, es: seq<Event>)
    requires cfg.objectName != "" && w.hist != [] && !w.gone && w.pc.Idle? && Doomed(cfg, Current(w), w.now)
    requires SmoothRun(cfg, w, es)
    ensures var u := Exec(cfg, w, es);
            u.round > w.round + 2 || (u.round == w.round + 2 && u.pc.Idle?) ==> Finalized(u)
  {
    hide Exec, SmoothRun;
    RunProgress(cfg, w.round, w, es);
  }

  // ---- each reconcile ends ----

  /** How many replies a reconcile of a doomed object is away from its end. */
  function Distance(pc: Pc): nat {
    match pc
    case Idle => 0
    case Reporting(_) => 1
    case Finalizing(_) => 1
    case Unpublishing(_) => 2
    case Deleting => 2
    case Deciding => 3
    case Observing => 4
    case Connecting => 5
    case Initializing => 6
    case Getting => 7
    case _ => 8
  }

  /** The reply the call in progress gets when nothing fails. */
  function SmoothReply(w: World): Event
    requires w.hist != []
  {
    match w.pc
    case Getting => Got(if w.gone then ReadMissing else Read(|w.hist| - 1))
    case Initializing => Wrote(NoFault)
    case Finalizing(_) => Wrote(NoFault)
    case Observing => Observed(Observation(Present(w.local.notes, w.live), true, false), w.local.spec)
    case Deciding => Proceed
    case Deleting => Deleted(true)
    case Reporting(_) => Reported(NoFault, Current(w).status)
    case _ => Called(Succeeds)
  }

  /** The call in progress can be answered, and whatever answers it brings the
      reconcile closer to its end; nothing else moves it. */
  lemma EachReplyCounts(cfg: Config, first: nat, w: World, e: Event)
    requires Progress(cfg, first, w) && !w.gone && !w.pc.Idle? && Smooth(w, e)
    ensures Smooth(w, SmoothReply(w)) && Distance(Next(cfg, w, SmoothReply(w)).pc) < Distance(w.pc)
    ensures Next(cfg, w, e).pc == w.pc || Distance(Next(cfg, w, e).pc) < Distance(w.pc)
  {
    hide SucceededDuring, CreateIncomplete, IsPaused, Commit;
    Closer(cfg, first, w, SmoothReply(w));
    Closer(cfg, first, w, e);
  }

  lemma Closer(cfg: Config, first: nat, w: World, e: Event)
    requires Progress(cfg, first, w) && !w.gone && !w.pc.Idle? && Smooth(w, e)
    ensures Next(cfg, w, e).pc == w.pc || Distance(Next(cfg, w, e).pc) < Distance(w.pc)
    ensures e == SmoothReply(w) ==> Next(cfg, w, e).pc != w.pc
  {
    hide SucceededDuring, CreateIncomplete, IsPaused, Commit, Write;
    if !w.pc.Getting? {
      SmoothWrite(w, Named(cfg, w.local));
      SmoothWrite(w, w.local.(finalizers := w.local.finalizers - {FINALIZER}));
      if e.Reported? { SmoothWrite(w, Current(w).(status := e.status)); }
    }
  }
}
