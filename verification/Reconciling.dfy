/** `Reconcile` as it is written: one method with early returns that changes its copy
of the managed resource between calls, with the helpers it calls. Every execution
is a run of the step system in `Protocol`, so what is proved about all runs holds
of it.

The environment is a script: what others do between the calls, and how the calls
are answered. Where the script ends the process does too. */
module Reconciling {
  import opened Text
  import opened Meta
  import opened Protocol
  import opened ProtocolSafety
  import opened ProtocolLeak

  /** Whether an event answers the call a reconcile is waiting for. */
  predicate Answers(pc: Pc, versions: nat, e: Event) {
    match pc
    case Idle => false
    case Getting => e.Got? && (e.read.Read? ==> e.read.version < versions)
    case Unpublishing(_) => e.Called?
    case Finalizing(_) => e.Wrote?
    case Initializing => e.Wrote?
    case Resolving => e.Called?
    case Connecting => e.Called?
    case Observing => e.Observed? || e.ObserveFailed?
    case Deciding => e.Proceed?
    case Deleting => e.Deleted?
    case Publishing(_) => e.Called?
    case AddingFinalizer => e.Wrote?
    case Stamping => e.Proceed?
    case WritingPending => e.Wrote?
    case Creating => e.Created? || e.CreateFailed?
    case Recording(_) => e.Proceed?
    case WritingCritical(_) => e.Wrote? || e == GaveUp(false)
    case RereadingCritical(_) => (e.Got? && (e.read.Read? ==> e.read.version < versions)) || e == GaveUp(false)
    case LateInitializing => e.Wrote?
    case Updating => e.Updated?
    case Reporting(_) => e.Reported?
  }

  predicate IsWrite(pc: Pc) {
    || pc.Initializing? || pc.Finalizing? || pc.AddingFinalizer? || pc.WritingPending? || pc.WritingCritical?
    || pc.LateInitializing?
  }

  /** How a reconcile goes on after a write. */
  function AfterWrite(cfg: Config, pc: Pc, a: Attempt): World {
    match pc
    case Initializing => if a.result == Landed then AfterInit(cfg, a.w) else OnFailure(a.w, a.result == Conflicted)
    case Finalizing(_) =>
      if a.result == Landed || a.result == Missing then Return(a.w, QUIET) else OnFailure(a.w, a.result == Conflicted)
    case AddingFinalizer =>
      if a.result == Landed then AfterFinalizer(cfg, a.w) else OnFailure(a.w, a.result == Conflicted)
    case WritingPending => if a.result == Landed then Goto(a.w, Creating) else OnFailure(a.w, a.result == Conflicted)
    case WritingCritical(s) =>
      if a.result == Landed then (if s then Goto(a.w, Publishing(AfterCreate)) else Report(a.w, REQUEUE))
      else if a.result == Conflicted then Goto(a.w, RereadingCritical(s))
      else a.w
    case LateInitializing => if a.result == Landed then AfterLateInit(cfg, a.w) else Report(a.w, REQUEUE)
    case _ => a.w
  }

  lemma WriteThenGoOn(cfg: Config, w: World, f: Fault)
    requires IsWrite(w.pc)
    ensures OnWrote(cfg, w, f) == AfterWrite(cfg, w.pc, Write(w, Sent(cfg, w), f))
  {
    hide Write, AfterInit, AfterFinalizer, AfterLateInit;
  }

  /** The part of the step function that handles each kind of answer. */
  lemma AnswerIs(cfg: Config, w: World, e: Event)
    ensures e.Got? ==> Next(cfg, w, e) == OnGot(cfg, w, e.read)
    ensures e.Wrote? ==> Next(cfg, w, e) == OnWrote(cfg, w, e.fault)
    ensures e.Called? ==> Next(cfg, w, e) == OnCalled(cfg, w, e.outcome)
    ensures e.Reported? && w.pc.Reporting? ==> Next(cfg, w, e) == OnReported(w, w.pc.res, e.fault, e.status)
    ensures e.GaveUp? ==> Next(cfg, w, e) == OnGaveUp(w, e.conflict)
    ensures e.Proceed? ==> Next(cfg, w, e) == OnProceed(cfg, w)
  {
    hide OnGot, OnWrote, OnCalled, OnReported, OnGaveUp, OnProceed;
  }

  lemma ExternalAnswerIs(cfg: Config, w: World, e: Event)
    ensures e.Observed? && w.pc.Observing? ==>
              Next(cfg, w, e) == w.(pc := Deciding, seen := e.seen, seenAt := w.now, local := w.local.(spec := e.spec))
    ensures e.ObserveFailed? && w.pc.Observing? ==> Next(cfg, w, e) == OnFailure(w, e.conflict)
    ensures e.Created? && w.pc.Creating? ==> Next(cfg, w, e) == OnCreated(w, e.name, e.spec)
    ensures e.CreateFailed? && w.pc.Creating? ==> Next(cfg, w, e) == OnCreateFailed(w)
    ensures e.Deleted? && w.pc.Deleting? ==> Next(cfg, w, e) == OnDeleted(w, e.effective)
    ensures e.Updated? && w.pc.Updating? ==> Next(cfg, w, e) == OnUpdated(w, e.ok)
    ensures e.Start? && w.pc.Idle? ==> Next(cfg, w, e) == w.(pc := Getting, round := w.round + 1, calls := [])
  {
    hide OnFailure, OnCreated, OnCreateFailed, OnDeleted, OnUpdated;
  }

  lemma AfterWriteKeeps(cfg: Config, pc: Pc, a: Attempt)
    ensures var v := AfterWrite(cfg, pc, a);
            v == a.w.(pc := v.pc, checked := v.checked, result := v.result)
  {}

  lemma CriticalIs(cfg: Config, success: bool, a: Attempt)
    requires a.w.pc == WritingCritical(success)
    ensures var v := AfterWrite(cfg, a.w.pc, a);
            && v.captured == a.w.captured && v.local == a.w.local
            && v.pc == match a.result
                       case Landed => (if success then Publishing(AfterCreate) else Reporting(REQUEUE))
                       case Conflicted => RereadingCritical(success)
                       case _ => WritingCritical(success)
  {}

  lemma CalledKeeps(cfg: Config, w: World, o: Outcome)
    ensures var v := OnCalled(cfg, w, o);
            v == w.(pc := v.pc, result := v.result)
  {}

  lemma ProceedIs(cfg: Config, w: World)
    ensures var v := OnProceed(cfg, w);
            v == w.(pc := v.pc, result := v.result, local := v.local, captured := v.captured)
  {}

  lemma {:induction false} ExecSnoc(cfg: Config, w: World, es: seq<Event>, e: Event)
    ensures Exec(cfg, w, es + [e]) == Next(cfg, Exec(cfg, w, es), e)
    decreases |es|
  {
    hide Next;
    if es == [] {
      assert Exec(cfg, w, [e]) == Exec(cfg, Next(cfg, w, e), []);
    } else {
      assert (es + [e])[1..] == es[1..] + [e];
      ExecSnoc(cfg, Next(cfg, w, es[0]), es[1..], e);
    }
  }

  predicate Uninterrupted(script: seq<Event>) {
    Crash !in script
  }

  lemma UninterruptedTail(script: seq<Event>)
    requires script != [] && Uninterrupted(script)
    ensures script[0] != Crash && Uninterrupted(script[1..])
  {}

  // ---- how a script is played ----

  /** The environment acts, or answers the call in progress. */
  predicate Relevant(w: World, e: Event) {
    e.Tick? || e.Vanish? || e.Edit? || e.Crash? || Answers(w.pc, |w.hist|, e)
  }

  /** What an event of the script does; an answer nobody waits for does nothing. */
  function Hear(cfg: Config, w: World, e: Event): World {
    if Relevant(w, e) then Next(cfg, w, e) else w
  }

  /** An event taken from the script, or a step the controller takes by itself. */
  datatype Move = Hears(event: Event) | Does(event: Event)

  function Take(cfg: Config, w: World, m: Move): World {
    match m
    case Hears(e) => Hear(cfg, w, e)
    case Does(e) => Next(cfg, w, e)
  }

  function Replay(cfg: Config, w: World, ms: seq<Move>): World {
    if ms == [] then w else Take(cfg, Replay(cfg, w, ms[..|ms| - 1]), ms[|ms| - 1])
  }

  /** The part of the script that has been played. */
  function Played(ms: seq<Move>): seq<Event> {
    if ms == [] then [] else Played(ms[..|ms| - 1]) + if ms[|ms| - 1].Hears? then [ms[|ms| - 1].event] else []
  }

  /** By itself the controller only begins, gives up retrying, or ends with its script. */
  predicate OwnStep(e: Event) {
    e.Start? || e.GaveUp? || e.Crash?
  }

  predicate OwnSteps(ms: seq<Move>) {
    forall i :: 0 <= i < |ms| ==> ms[i].Does? ==> OwnStep(ms[i].event)
  }

  /** The moves lead from `w` to `v` and play the script `all` up to what is left,
      event by event. */
  predicate Plays(cfg: Config, w: World, ms: seq<Move>, v: World, left: seq<Event>, all: seq<Event>) {
    v == Replay(cfg, w, ms) && Played(ms) + left == all && OwnSteps(ms)
  }

  lemma PlaysMore(cfg: Config, w: World, ms: seq<Move>, v: World, left: seq<Event>, all: seq<Event>, m: Move)
    requires Plays(cfg, w, ms, v, (if m.Hears? then [m.event] + left else left), all)
    requires m.Does? ==> OwnStep(m.event)
    ensures Plays(cfg, w, ms + [m], Take(cfg, v, m), left, all)
  {
    hide Take;
    assert (ms + [m])[..|ms|] == ms;
    if m.Hears? { assert Played(ms) + ([m.event] + left) == (Played(ms) + [m.event]) + left; }
  }

  /** The events of some moves that have an effect. */
  function Effective(cfg: Config, w: World, ms: seq<Move>): seq<Event> {
    if ms == [] then []
    else
      var before, m := ms[..|ms| - 1], ms[|ms| - 1];
      Effective(cfg, w, before) + if m.Does? || Relevant(Replay(cfg, w, before), m.event) then [m.event] else []
  }

  /** Playing a script is a run of the step system. */
  lemma {:induction false} ReplayIsRun(cfg: Config, w: World, ms: seq<Move>)
    ensures Replay(cfg, w, ms) == Exec(cfg, w, Effective(cfg, w, ms))
  {
    hide Next, Relevant;
    if ms != [] {
      var before, m := ms[..|ms| - 1], ms[|ms| - 1];
      var es := Effective(cfg, w, before);
      ReplayIsRun(cfg, w, before);
      ExecSnoc(cfg, w, es, m.event);
      assert es + [] == es;
    }
  }

  /** Every captured annotation is there with its captured value. */
  predicate Covers(n: Notes, captured: Notes) {
    && (captured.name.Some? ==> n.name == captured.name)
    && (captured.pending.Some? ==> n.pending == captured.pending)
    && (captured.succeeded.Some? ==> n.succeeded == captured.succeeded)
    && (captured.failed.Some? ==> n.failed == captured.failed)
    && (forall k :: k in captured.others ==> k in n.others && n.others[k] == captured.others[k])
  }

  /** Whatever was not captured is as in `base`: every other annotation, with its
      value and no more of them, and every field that is not an annotation. */
  predicate KeepsRest(o: Object, base: Object, captured: Notes) {
    && (captured.name.None? ==> o.notes.name == base.notes.name)
    && (captured.pending.None? ==> o.notes.pending == base.notes.pending)
    && (captured.succeeded.None? ==> o.notes.succeeded == base.notes.succeeded)
    && (captured.failed.None? ==> o.notes.failed == base.notes.failed)
    && (forall k :: k in base.notes.others && k !in captured.others ==>
          k in o.notes.others && o.notes.others[k] == base.notes.others[k])
    && (forall k :: k in o.notes.others ==> k in base.notes.others || k in captured.others)
    && o.finalizers == base.finalizers && o.deleted == base.deleted && o.policies == base.policies
    && o.deletionPolicy == base.deletionPolicy && o.spec == base.spec && o.status == base.status
  }

  /** Of the two objects, `o` is `base` with the captured annotations put over its own. */
  predicate Overlays(o: Object, base: Object, captured: Notes) {
    Covers(o.notes, captured) && KeepsRest(o, base, captured)
  }

  /** Adding annotations puts them over those that are there, key by key. */
  lemma AddedAnnotations(o: Object, captured: Notes)
    ensures Overlays(o.(notes := AddAnnotations(o.notes, captured)), o, captured)
  {}

  /** How updating the critical annotations ends; `retried` after a conflict. */
  datatype Critical = Crashed | Persisted(retried: bool) | GivenUp(conflict: bool)

  /** How one call of it ends: with the process, with the context, or with a result. */
  datatype Try = Ceased | Cancelled | Tried(result: WriteResult)

  /** `retry.DefaultRetry.Steps`. */
  const RETRIES: nat := 5

  class Controller {
    const cfg: Config

    // the API server, the external system and the clock
    var hist: seq<Version>
    var gone: bool
    var live: set<string>
    var creates: seq<Creation>
    var now: nat
    // what is still to happen around the controller
    var script: seq<Event>
    // the variables of a reconcile
    var round: nat
    var managed: Object
    var version: nat
    var observation: Observation

    // where the reconcile began and with which script, its moves since, and what
    // they lead to
    ghost var start: World
    ghost var all: seq<Event>
    ghost var moves: seq<Move>
    ghost var model: World

    /** The script has been played up to here, in order and leaving nothing out. */
    ghost predicate IsRun()
      reads `start, `all, `moves, `model, `script
    {
      Plays(cfg, start, moves, model, script, all)
    }

    /** The world outside is as in `w`. */
    ghost predicate Sees(w: World)
      reads `hist, `gone, `live, `creates, `now, `round, `observation
    {
      && hist != [] && hist == w.hist && gone == w.gone && live == w.live && creates == w.creates && now == w.now
      && round == w.round && observation == w.seen
    }

    ghost predicate Valid()
      reads `hist, `gone, `live, `creates, `now, `round, `observation, `start, `all, `moves, `model, `script
    {
      IsRun() && Sees(model)
    }

    /** A reconcile is at `pc`, with its copy in `managed`. */
    ghost predicate At(pc: Pc)
      reads this
    {
      Valid() && model.pc == pc && version == model.rv && (!pc.Reporting? ==> managed == model.local)
    }

    /** A reconcile that has returned `res`, or crashed. */
    ghost predicate Ended(res: Option<Result>)
      reads `hist, `gone, `live, `creates, `now, `round, `observation, `start, `all, `moves, `model, `script
    {
      Valid() && model.pc.Idle? && (res.Some? ==> res.value == model.result)
    }

    /** The process is not going to be interrupted; it may still run out of script. */
    ghost predicate Calm()
      reads `script
    {
      Uninterrupted(script)
    }

    constructor (cfg: Config, w: World, script: seq<Event>)
      requires w.hist != [] && w.pc.Idle?
      ensures Valid() && model == start == w && moves == [] && this.cfg == cfg && this.script == script
    {
      this.cfg, this.script := cfg, script;
      hist, gone, live, creates, now := w.hist, w.gone, w.live, w.creates, w.now;
      round, managed, version, observation := w.round, w.local, w.rv, w.seen;
      start, all, moves, model := w, script, [], w;
    }

    /** The next event of the script takes effect. */
    ghost method Listen(e: Event)
      requires Plays(cfg, start, moves, model, [e] + script, all)
      modifies `moves, `model
      ensures IsRun() && model == Hear(cfg, old(model), e)
    {
      hide Plays, Hear;
      PlaysMore(cfg, start, moves, model, script, all, Hears(e));
      moves, model := moves + [Hears(e)], Hear(cfg, model, e);
    }

    ghost method Happens(e: Event)
      requires IsRun() && OwnStep(e)
      modifies `moves, `model
      ensures IsRun() && model == Next(cfg, old(model), e)
    {
      hide Plays, Next;
      PlaysMore(cfg, start, moves, model, script, all, Does(e));
      moves, model := moves + [Does(e)], Next(cfg, model, e);
    }

    // ---- the environment ----

    /** The world `w` with what is outside as it is now. */
    ghost function Around(w: World): World
      reads this
    {
      w.(hist := hist, gone := gone, live := live, now := now)
    }

    /** Others act until the call in progress is answered. The answer has been
        given, and the reconcile has not done anything about it yet. */
    method Await(pc: Pc) returns (e: Event)
      requires Valid() && model.pc == pc && !pc.Idle?
      modifies `hist, `gone, `live, `now, `script, `moves, `model
      ensures IsRun() && Sees(Around(old(model))) && old(hist) <= hist
      ensures e == Crash ==> model == Goto(Around(old(model)), Idle)
      ensures e != Crash ==> Answers(pc, |hist|, e) && model == Next(cfg, Around(old(model)), e)
      ensures old(Calm()) ==> Calm() && (e == Crash ==> script == [])
    {
      hide Plays, Answers, Next, Uninterrupted;
      while script != []
        invariant Valid() && model == Around(old(model))
        invariant old(hist) <= hist && (old(Calm()) ==> Calm())
        decreases |script|
      {
        var over;
        e, over := Advance(pc);
        if over { return; }
      }
      CrashStops(cfg, model);
      Happens(Crash);
      e := Crash;
    }

    /** One event of the script; `over` if it ends the waiting. */
    method Advance(pc: Pc) returns (e: Event, over: bool)
      requires Valid() && model.pc == pc && !pc.Idle? && script != []
      modifies `hist, `gone, `live, `now, `script, `moves, `model
      ensures |script| < |old(script)| && old(hist) <= hist
      ensures IsRun() && Sees(Around(old(model)))
      ensures !over ==> model == Around(old(model))
      ensures over && e == Crash ==> model == Goto(Around(old(model)), Idle)
      ensures over && e != Crash ==> Answers(pc, |hist|, e) && model == Next(cfg, Around(old(model)), e)
      ensures old(Calm()) ==> Calm() && (over ==> e != Crash)
    {
      hide Plays, Answers, Next, Uninterrupted;
      e := script[0];
      assert [e] + script[1..] == script;
      if Calm() { UninterruptedTail(script); }
      script := script[1..];
      over := e == Crash || Answers(pc, |hist|, e);
      if e.Tick? || e.Vanish? || e.Edit? {
        NotAnAnswer(pc, |hist|, e);
        Disturb(e, model);
      } else if e == Crash {
        CrashStops(cfg, model);
      }
      Listen(e);
    }

    static lemma NotAnAnswer(pc: Pc, n: nat, e: Event)
      requires e.Tick? || e.Vanish? || e.Edit? || e.Crash?
      ensures !Answers(pc, n, e)
    {}

    static lemma CrashStops(cfg: Config, w: World)
      ensures Next(cfg, w, Crash) == Goto(w, Idle)
    {}

    static lemma AnswerKinds(pc: Pc, n: nat, e: Event)
      requires Answers(pc, n, e)
      ensures e != Crash
      ensures IsWrite(pc) && !pc.WritingCritical? ==> e.Wrote?
      ensures pc.WritingCritical? ==> e.Wrote? || e == GaveUp(false)
      ensures pc.RereadingCritical? ==> e.Got? || e == GaveUp(false)
      ensures e.Got? && e.read.Read? ==> e.read.version < n
      ensures pc.Reporting? ==> e.Reported?
    {}

    method Disturb(e: Event, ghost w: World)
      requires hist != [] && (e.Tick? || e.Vanish? || e.Edit?) && w == Around(w)
      modifies `hist, `gone, `live, `now
      ensures Next(cfg, w, e) == Around(w) && hist != []
      ensures old(hist) <= hist
    {
      match e
      case Tick(d) => now := now + d;
      case Vanish(n) => live := live - {n};
      case Edit(o) =>
        if !gone && o != hist[|hist| - 1].obj {
          hist, gone := hist + [Version(o, 0)], o.deleted && o.finalizers == {};
        }
    }

    /** The API server's side of an update: compare and swap on the version. */
    method Store(o: Object, f: Fault, ghost w: World) returns (r: WriteResult)
      requires hist != [] && w.hist == hist && w.gone == gone && w.rv == version && w.round == round
      modifies `hist, `gone, `version
      ensures hist != []
      ensures Write(w, o, f) ==
              Attempt(w.(hist := hist, gone := gone, rv := version, local := if r == Landed then o else w.local), r)
      ensures old(hist) <= hist
      ensures r == Landed ==>
                && old(version) + 1 == |old(hist)| && version + 1 == |hist|
                && version <= old(version) + 1 && hist[version].obj == o
      ensures r != Landed ==> version == old(version)
      ensures r == Conflicted ==> hist == old(hist) && version + 1 != |hist|
    {
      if f == Lost { return Errored; }
      if gone { return Missing; }
      if version + 1 != |hist| { return Conflicted; }
      if o != hist[|hist| - 1].obj {
        hist, gone := hist + [Version(o, round)], o.deleted && o.finalizers == {};
      }
      if f == Ambiguous { return Errored; }
      version := |hist| - 1;
      return Landed;
    }

    // ---- calls and their answers ----

    /** `client.Update` of the copy, which already has the changes to be stored. */
    method Update(pc: Pc) returns (r: Option<WriteResult>, ghost a: Attempt)
      requires Valid() && model.pc == pc && IsWrite(pc) && !pc.WritingCritical?
      requires version == model.rv && managed == Sent(cfg, model)
      modifies `hist, `gone, `live, `now, `script, `moves, `model, `version
      ensures r.None? ==> Ended(None)
      ensures r.Some? ==> Valid() && version == model.rv && model == AfterWrite(cfg, pc, a)
      ensures r.Some? ==> a.result == r.value && a.w.pc == pc && a.w.seen == old(model).seen
      ensures r.Some? ==> a.w.local == if r.value == Landed then managed else old(model).local
      ensures r == Some(Landed) ==> version + 1 == |hist| && managed == model.local
      ensures old(Calm()) ==> Calm() && (r.None? ==> script == [])
    {
      hide Plays, OnWrote, AfterWrite, Next, Answers, Calm;
      ghost var m := model;
      a := Attempt(model, Errored);
      var e := Await(pc);
      if e == Crash { return None, a; }
      AnswerKinds(pc, |hist|, e);
      m := Around(m);
      AnswerIs(cfg, m, e);
      var w;
      w, a := StoreCopy(e.fault, m);
      return Some(w), a;
    }

    method StoreCopy(f: Fault, ghost m: World) returns (r: WriteResult, ghost a: Attempt)
      requires IsRun() && Sees(m) && version == m.rv && IsWrite(m.pc) && managed == Sent(cfg, m) && model == OnWrote(cfg, m, f)
      modifies `hist, `gone, `version
      ensures Valid() && version == model.rv && model == AfterWrite(cfg, m.pc, a)
      ensures a.result == r && a.w.pc == m.pc && a.w.seen == m.seen && a.w.captured == m.captured
      ensures a.w.local == if r == Landed then managed else m.local
      ensures r == Landed ==> managed == model.local && version + 1 == |hist| && hist[version].obj == managed
      ensures r == Landed ==> old(version) + 1 == |old(hist)| && version <= old(version) + 1
      ensures r != Landed ==> version == old(version)
      ensures r == Conflicted ==> version + 1 != |hist|
      ensures old(hist) <= hist
    {
      hide Plays, Write, OnWrote, AfterWrite;
      a := Write(m, managed, f);
      WriteThenGoOn(cfg, m, f);
      AfterWriteKeeps(cfg, m.pc, a);
      r := Store(managed, f, m);
    }

    /** A call outside that only succeeds or fails. */
    method Invoke(pc: Pc) returns (o: Option<Outcome>)
      requires At(pc) && (pc.Unpublishing? || pc.Resolving? || pc.Connecting? || pc.Publishing?)
      modifies `hist, `gone, `live, `now, `script, `moves, `model
      ensures o.None? ==> Ended(None)
      ensures o.Some? ==> Valid() && version == model.rv && managed == model.local
      ensures o.Some? ==> model == OnCalled(cfg, Around(old(model)), o.value)
      ensures old(Calm()) ==> Calm() && (o.None? ==> script == [])
    {
      hide Plays, OnCalled, Next, Calm;
      ghost var m := model;
      var e := Await(pc);
      if e == Crash { return None; }
      AnswerIs(cfg, Around(m), e);
      CalledKeeps(cfg, Around(m), e.outcome);
      return Some(e.outcome);
    }

    /** Reading the clock. */
    method Clock(pc: Pc) returns (ok: bool)
      requires At(pc) && (pc.Deciding? || pc.Stamping? || pc.Recording?)
      modifies `hist, `gone, `live, `now, `script, `moves, `model
      ensures old(hist) <= hist
      ensures !ok ==> Ended(None)
      ensures ok ==> Valid() && version == model.rv && model.now == now
      ensures ok ==> model == OnProceed(cfg, Around(old(model)))
      ensures old(Calm()) ==> Calm() && (!ok ==> script == [])
    {
      hide Plays, OnProceed, Next, Calm;
      ghost var m := model;
      var e := Await(pc);
      if e == Crash { return false; }
      AnswerIs(cfg, Around(m), e);
      ProceedIs(cfg, Around(m));
      return true;
    }

    /** `Status().Update`, which ends most reconciles; a conflict is turned into a
        silent requeue. */
    method UpdateStatus(res: Result) returns (r: Option<Result>)
      requires At(Reporting(res))
      modifies `hist, `gone, `live, `creates, `now, `script, `managed, `version, `observation, `moves, `model
      ensures Ended(r)
      ensures old(Calm()) ==> Calm() && (r.None? ==> script == [])
    {
      hide Plays, Next, Answers, OnReported, Calm;
      ghost var m := model;
      var e := Await(Reporting(res));
      if e == Crash { return None; }
      AnswerKinds(Reporting(res), |hist|, e);
      m := Around(m);
      AnswerIs(cfg, m, e);
      var x := StoreStatus(res, e.fault, e.status, m);
      return Some(x);
    }

    method StoreStatus(res: Result, f: Fault, status: int, ghost m: World) returns (r: Result)
      requires IsRun() && Sees(m) && version == m.rv && m.pc == Reporting(res) && model == OnReported(m, res, f, status)
      modifies `hist, `gone, `version, `managed
      ensures Ended(Some(r))
    {
      hide Plays, Write;
      var o := hist[|hist| - 1].obj.(status := status);
      var w := Store(o, f, m);
      match w
      case Landed =>
        managed := o;
        return res;
      case Conflicted => return REQUEUE;
      case _ => return res.(err := true);
    }

    /** The answer to most failed calls. */
    method Fail(conflict: bool) returns (r: Option<Result>)
      requires Valid() && version == model.rv
      requires if conflict then model.pc.Idle? && model.result == REQUEUE else model.pc == Reporting(REQUEUE)
      modifies `hist, `gone, `live, `creates, `now, `script, `managed, `version, `observation, `moves, `model
      ensures Ended(r)
      ensures old(Calm()) ==> Calm() && (r.None? ==> script == [])
    {
      hide Plays, Calm;
      if conflict { return Some(REQUEUE); }
      r := UpdateStatus(REQUEUE);
    }

    /** The state a failed update of the critical annotations leads to. */
    ghost predicate GaveUpAt(success: bool, conflict: bool)
      reads this
    {
      && Valid() && version == model.rv
      && if success && conflict then model.pc.Idle? && model.result == REQUEUE else model.pc == Reporting(REQUEUE)
    }

    /** One attempt to write the copy. */
    method WriteCritical(success: bool) returns (t: Try)
      requires At(WritingCritical(success)) && version < |hist|
      modifies `hist, `gone, `live, `now, `script, `moves, `model, `version
      ensures t.Ceased? ==> Ended(None)
      ensures t.Cancelled? ==> GaveUpAt(success, false)
      ensures t.Tried? && t.result == Landed ==> At(if success then Publishing(AfterCreate) else Reporting(REQUEUE))
      ensures t.Tried? && t.result == Landed ==> version + 1 == |hist| && hist[version].obj == managed
      ensures t.Tried? && t.result == Landed ==> |old(hist)| <= old(version) + 1 && version - 1 <= old(version) <= version
      ensures t.Tried? && t.result == Conflicted ==> At(RereadingCritical(success)) && version + 1 < |hist|
      ensures t.Tried? && (t.result == Missing || t.result == Errored) ==> At(WritingCritical(success))
      ensures !t.Ceased? ==> model.captured == old(model).captured && (t != Tried(Landed) ==> version == old(version))
      ensures old(hist) <= hist
      ensures old(Calm()) ==> Calm() && (t.Ceased? ==> script == [])
    {
      hide Plays, Next, OnWrote, Answers, AfterWrite, Calm;
      ghost var m := model;
      var e := Await(WritingCritical(success));
      if e == Crash { return Ceased; }
      AnswerKinds(WritingCritical(success), |hist|, e);
      m := Around(m);
      AnswerIs(cfg, m, e);
      if e.GaveUp? { return Cancelled; }
      var w := StoreCritical(success, e.fault, m);
      return Tried(w);
    }

    method StoreCritical(success: bool, f: Fault, ghost m: World) returns (w: WriteResult)
      requires IsRun() && Sees(m) && version == m.rv && managed == m.local && m.pc == WritingCritical(success)
      requires model == OnWrote(cfg, m, f) && version < |hist|
      modifies `hist, `gone, `version
      ensures w == Landed ==> At(if success then Publishing(AfterCreate) else Reporting(REQUEUE))
      ensures w == Landed ==> version + 1 == |hist| && hist[version].obj == managed
      ensures w == Landed ==> |old(hist)| <= old(version) + 1 && version - 1 <= old(version) <= version
      ensures w == Conflicted ==> At(RereadingCritical(success)) && version + 1 < |hist|
      ensures w == Missing || w == Errored ==> At(WritingCritical(success))
      ensures model.captured == m.captured && (w != Landed ==> version == old(version)) && old(hist) <= hist
    {
      hide Plays, Next, OnWrote, AfterWrite;
      ghost var a;
      w, a := StoreCopy(f, m);
      CriticalIs(cfg, success, a);
    }

    /** After a conflict: read the object again and put the annotations over it. */
    method Reread(success: bool, annotations: Notes) returns (t: Try)
      requires At(RereadingCritical(success)) && model.captured == annotations && version + 1 < |hist|
      modifies `hist, `gone, `live, `now, `script, `moves, `model, `version, `managed
      ensures t.Ceased? ==> Ended(None)
      ensures t.Cancelled? ==> GaveUpAt(success, false)
      ensures t.Tried? ==> At(WritingCritical(success)) && model.captured == annotations && version < |hist|
      ensures t.Tried? ==> version + 1 < |hist| || Overlays(managed, hist[version].obj, annotations)
      ensures old(Calm()) ==> Calm() && (t.Ceased? ==> script == [])
    {
      hide Plays, Next, Answers, Calm;
      ghost var m := model;
      var e := Await(RereadingCritical(success));
      if e == Crash { return Ceased; }
      AnswerKinds(RereadingCritical(success), |hist|, e);
      AnswerIs(cfg, Around(m), e);
      if e.GaveUp? { return Cancelled; }
      if !e.read.Read? { return Tried(Errored); }
      Reannotate(success, annotations, e.read.version, Around(m));
      return Tried(Landed);
    }

    /** The copy is the version read, with the captured annotations over its own. */
    method Reannotate(success: bool, annotations: Notes, i: nat, ghost m: World)
      requires IsRun() && Sees(m) && m.pc == RereadingCritical(success) && m.captured == annotations && i < |hist|
      requires model == OnGot(cfg, m, Read(i))
      modifies `version, `managed
      ensures At(WritingCritical(success)) && model.captured == annotations && version == i
      ensures Overlays(managed, hist[version].obj, annotations)
    {
      hide Plays, Overlays, AddAnnotations;
      AddedAnnotations(hist[i].obj, annotations);
      version := i;
      managed := hist[i].obj.(notes := AddAnnotations(hist[i].obj.notes, annotations));
    }

    /** `UpdateCriticalAnnotations`: whatever others write meanwhile and however
        often there is a conflict, on success every captured annotation is stored
        with its captured value; after a conflict the rest of the object is what
        the version before it had. */
    method UpdateCriticalAnnotations(success: bool) returns (r: Critical)
      requires At(WritingCritical(success)) && model.captured == managed.notes && version < |hist|
      modifies `hist, `gone, `live, `creates, `now, `script, `managed, `version, `observation, `moves, `model
      ensures r.Crashed? ==> Ended(None)
      ensures r.GivenUp? ==> GaveUpAt(success, r.conflict)
      ensures r.Persisted? ==> At(if success then Publishing(AfterCreate) else Reporting(REQUEUE))
      ensures r.Persisted? ==> version + 1 == |hist| && hist[version].obj == managed && Covers(managed.notes, old(managed).notes)
      ensures r == Persisted(false) ==> managed == old(managed)
      ensures r == Persisted(true) ==>
                exists b :: version - 1 <= b <= version && 0 <= b && KeepsRest(managed, hist[b].obj, old(managed).notes)
      ensures old(Calm()) ==> Calm() && (r.Crashed? ==> script == [])
    {
      hide Plays, Next, Valid, Ended, Calm;
      var annotations := managed.notes;
      var conflict, retried := false, false;
      for step := 0 to RETRIES
        invariant At(WritingCritical(success)) && model.captured == annotations && version < |hist|
        invariant !retried ==> managed == old(managed)
        invariant old(Calm()) ==> Calm()
        invariant retried ==> version + 1 < |hist| || Overlays(managed, hist[version].obj, annotations)
      {
        var was := version;
        var t := WriteCritical(success);
        if t.Tried? && t.result == Landed {
          assert retried ==> KeepsRest(managed, hist[was].obj, annotations);
          return Persisted(retried);
        }
        conflict := t.Tried? && t.result == Conflicted;
        if conflict {
          retried := true;
          t := Reread(success, annotations);
          conflict := t == Tried(Landed);
        }
        if t.Ceased? { return Crashed; }
        if t.Cancelled? { return GivenUp(false); }
      }
      GiveUp(success, conflict);
      return GivenUp(conflict);
    }

    ghost method GiveUp(success: bool, conflict: bool)
      requires At(WritingCritical(success))
      modifies `moves, `model
      ensures GaveUpAt(success, conflict)
    {
      hide Plays, Next;
      AnswerIs(cfg, model, GaveUp(conflict));
      Happens(GaveUp(conflict));
    }

    // ---- the reconcile ----

    /** One reconcile is a run of the step system from start to end, and returns
        what that run returns. */
    method Reconcile() returns (r: Option<Result>)
      requires Valid() && model.pc.Idle?
      modifies this
      ensures Ended(r) && start == old(model) && all == old(script)
      ensures old(Calm()) ==> Calm() && (r.None? ==> script == [])
    {
      hide Plays, Next, Valid, Ended, AfterGet, Calm;
      Begin();
      var found;
      found, r := Get();
      if found { r := Examine(); }
    }

    method Begin()
      requires Valid() && model.pc.Idle?
      modifies `start, `all, `moves, `model, `round
      ensures Valid() && model.pc == Getting && start == old(model) && all == script
    {
      hide Plays, Next;
      start, all, moves := model, script, [];
      PlaysNothing(cfg, model, script);
      ExternalAnswerIs(cfg, model, Start);
      Happens(Start);
      round := round + 1;
    }

    /** `client.Get`. The reconcile ends here when there is nothing to read. */
    method Get() returns (found: bool, r: Option<Result>)
      requires Valid() && model.pc == Getting
      modifies `hist, `gone, `live, `now, `script, `moves, `model, `version, `managed
      ensures !found ==> Ended(r)
      ensures found ==> Valid() && version == model.rv && managed == model.local && model.pc == AfterGet(cfg, model).pc
      ensures old(Calm()) ==> Calm() && (!found && r.None? ==> script == [])
    {
      hide Plays, Next, AfterGet, Calm;
      ghost var m := model;
      var e := Await(Getting);
      if e == Crash { return false, None; }
      m := Around(m);
      AnswerIs(cfg, m, e);
      match e.read
      case ReadMissing => return false, Some(QUIET);
      case ReadError => return false, Some(Result(false, 0, true));
      case Read(i) =>
        version, managed := i, hist[i].obj;
        AfterGetIs(cfg, m.(rv := i, local := managed));
        return true, None;
    }

    static lemma PlaysNothing(cfg: Config, w: World, script: seq<Event>)
      ensures Plays(cfg, w, [], w, script, script)
    {}

    static lemma AfterGetIs(cfg: Config, w: World)
      ensures var v := AfterGet(cfg, w);
              v == w.(pc := v.pc, checked := v.checked) && v.pc == AfterGet(cfg, v).pc
    {}

    /** Paused, invalid and orphaned objects; everything else goes on. */
    method Examine() returns (r: Option<Result>)
      requires Valid() && version == model.rv && managed == model.local && model.pc == AfterGet(cfg, model).pc
      modifies `hist, `gone, `live, `creates, `now, `script, `managed, `version, `observation, `moves, `model
      ensures Ended(r)
      ensures old(Calm()) ==> Calm() && (r.None? ==> script == [])
    {
      hide Plays, Next, Valid, Ended, Calm;
      var policy := Policy(cfg, managed);
      if IsPaused(managed.notes) || policy.Paused() {
        r := UpdateStatus(QUIET);
      } else if !policy.Valid() {
        r := UpdateStatus(QUIET);
      } else if managed.deleted && !policy.ShouldDelete() {
        r := Finish(true);
      } else {
        r := Initialize();
      }
    }

    method Initialize() returns (r: Option<Result>)
      requires Valid() && version == model.rv && managed == model.local
      requires model.pc == if cfg.nameAsExternalName && ExternalName(managed.notes) == "" then Initializing else AfterInit(cfg, model).pc
      modifies `hist, `gone, `live, `creates, `now, `script, `managed, `version, `observation, `moves, `model
      ensures Ended(r)
      ensures old(Calm()) ==> Calm() && (r.None? ==> script == [])
    {
      hide Plays, Next, Valid, Ended, Calm;
      if cfg.nameAsExternalName && ExternalName(managed.notes) == "" {
        managed := managed.(notes := managed.notes.(name := Some(cfg.objectName)));
        var w, _ := Update(Initializing);
        if w.None? { return None; }
        if w.value != Landed {
          r := Fail(w.value == Conflicted);
          return;
        }
      }
      r := Connect();
    }

    /** Refuse to go on after a creation of unknown outcome; resolve references,
        connect, and observe. */
    method Connect() returns (r: Option<Result>)
      requires Valid() && version == model.rv && managed == model.local && model.pc == AfterInit(cfg, model).pc
      modifies `hist, `gone, `live, `creates, `now, `script, `managed, `version, `observation, `moves, `model
      ensures Ended(r)
      ensures old(Calm()) ==> Calm() && (r.None? ==> script == [])
    {
      hide Plays, Next, Valid, Ended, Calm;
      if CreateIncomplete(managed.notes) && !cfg.deterministic {
        r := UpdateStatus(QUIET);
        return;
      }
      if !managed.deleted {
        var o := Invoke(Resolving);
        if o.None? { return None; }
        if o.value != Succeeds {
          r := Fail(o.value == Conflicts);
          return;
        }
      }
      var o := Invoke(Connecting);
      if o.None? { return None; }
      if o.value != Succeeds {
        r := Fail(o.value == Conflicts);
        return;
      }
      r := Observe();
    }

    method Observe() returns (r: Option<Result>)
      requires At(Observing)
      modifies `hist, `gone, `live, `creates, `now, `script, `managed, `version, `observation, `moves, `model
      ensures Ended(r)
      ensures old(Calm()) ==> Calm() && (r.None? ==> script == [])
    {
      hide Plays, Next, Calm;
      ghost var m := model;
      var e := Await(Observing);
      if e == Crash { return None; }
      ExternalAnswerIs(cfg, Around(m), e);
      if e.ObserveFailed? {
        r := Fail(e.conflict);
        return;
      }
      observation, managed := e.seen, managed.(spec := e.spec);
      r := Decide();
    }

    /** The grace check looks at the clock; then it is clear what to do. */
    method Decide() returns (r: Option<Result>)
      requires At(Deciding)
      modifies `hist, `gone, `live, `creates, `now, `script, `managed, `version, `observation, `moves, `model
      ensures Ended(r)
      ensures old(Calm()) ==> Calm() && (r.None? ==> script == [])
    {
      hide Plays, Next, Calm;
      var ok := Clock(Deciding);
      if !ok { return None; }
      var policy := Policy(cfg, managed);
      if !observation.present && policy.ShouldOnlyObserve() {
        r := UpdateStatus(REQUEUE);
      } else if !observation.present && SucceededDuring(managed.notes, now, cfg.grace) {
        return Some(REQUEUE);
      } else if managed.deleted {
        if observation.present && policy.ShouldDelete() {
          r := DeleteExternal();
        } else {
          r := Finish(false);
        }
      } else {
        r := Manage();
      }
    }

    method DeleteExternal() returns (r: Option<Result>)
      requires At(Deleting)
      modifies `hist, `gone, `live, `creates, `now, `script, `managed, `version, `observation, `moves, `model
      ensures Ended(r)
      ensures old(Calm()) ==> Calm() && (r.None? ==> script == [])
    {
      hide Plays, Next, Calm;
      ghost var m := model;
      var e := Await(Deleting);
      if e == Crash { return None; }
      ExternalAnswerIs(cfg, Around(m), e);
      if e.effective { live := live - {ExternalName(managed.notes)}; }
      r := UpdateStatus(REQUEUE);
    }

    /** Unpublish and remove the finalizer; an object that is gone is fine. */
    method Finish(orphan: bool) returns (r: Option<Result>)
      requires At(Unpublishing(orphan))
      modifies `hist, `gone, `live, `creates, `now, `script, `managed, `version, `observation, `moves, `model
      ensures Ended(r)
      ensures old(Calm()) ==> Calm() && (r.None? ==> script == [])
    {
      hide Plays, Next, Calm;
      var o := Invoke(Unpublishing(orphan));
      if o.None? { return None; }
      if o.value != Succeeds {
        r := Fail(o.value == Conflicts);
        return;
      }
      if FINALIZER in managed.finalizers {
        managed := managed.(finalizers := managed.finalizers - {FINALIZER});
        var w, _ := Update(Finalizing(orphan));
        if w.None? { return None; }
        if w.value != Landed && w.value != Missing {
          r := Fail(w.value == Conflicted);
          return;
        }
      }
      return Some(QUIET);
    }

    /** Publish, add the finalizer, and create or update. */
    method Manage() returns (r: Option<Result>)
      requires At(Publishing(BeforeCreate))
      modifies `hist, `gone, `live, `creates, `now, `script, `managed, `version, `observation, `moves, `model
      ensures Ended(r)
      ensures old(Calm()) ==> Calm() && (r.None? ==> script == [])
    {
      hide Plays, Next, Valid, Ended, AfterPublish, Calm;
      ghost var m := model;
      var o := Invoke(Publishing(BeforeCreate));
      if o.None? { return None; }
      if o.value != Succeeds {
        r := Fail(o.value == Conflicts);
        return;
      }
      AfterPublishIs(cfg, Around(m));
      r := AddFinalizer();
    }

    method AddFinalizer() returns (r: Option<Result>)
      requires Valid() && version == model.rv && managed == model.local && model.pc == AfterPublish(cfg, model).pc
      modifies `hist, `gone, `live, `creates, `now, `script, `managed, `version, `observation, `moves, `model
      ensures Ended(r)
      ensures old(Calm()) ==> Calm() && (r.None? ==> script == [])
    {
      hide Plays, Next, Valid, Ended, AfterFinalizer, Calm;
      if FINALIZER !in managed.finalizers {
        managed := managed.(finalizers := managed.finalizers + {FINALIZER});
        var w, a := Update(AddingFinalizer);
        if w.None? { return None; }
        if w.value != Landed {
          r := Fail(w.value == Conflicted);
          return;
        }
        AfterFinalizerIs(cfg, a.w);
      }
      r := CreateOrUpdate();
    }

    static lemma AfterPublishIs(cfg: Config, w: World)
      ensures var v := AfterPublish(cfg, w);
              v.pc == AfterPublish(cfg, v).pc
    {
      hide AfterFinalizer;
      AfterFinalizerIs(cfg, w);
    }

    static lemma AfterFinalizerIs(cfg: Config, w: World)
      ensures var v := AfterFinalizer(cfg, w);
              v == w.(pc := v.pc) && v.pc == AfterFinalizer(cfg, v).pc
    {}

    method CreateOrUpdate() returns (r: Option<Result>)
      requires Valid() && version == model.rv && managed == model.local && model.pc == AfterFinalizer(cfg, model).pc
      modifies `hist, `gone, `live, `creates, `now, `script, `managed, `version, `observation, `moves, `model
      ensures Ended(r)
      ensures old(Calm()) ==> Calm() && (r.None? ==> script == [])
    {
      hide Plays, Next, Ended, Calm;
      var policy := Policy(cfg, managed);
      if !observation.present && policy.ShouldCreate() {
        r := CreateExternal();
        return;
      }
      if observation.late && policy.ShouldLateInitialize() {
        r := LateInitialize();
      } else {
        r := UpdateExternal();
      }
    }

    method LateInitialize() returns (r: Option<Result>)
      requires At(LateInitializing)
      modifies `hist, `gone, `live, `creates, `now, `script, `managed, `version, `observation, `moves, `model
      ensures Ended(r)
      ensures old(Calm()) ==> Calm() && (r.None? ==> script == [])
    {
      hide Plays, Next, Valid, Ended, Calm, AfterLateInit;
      var w, a := Update(LateInitializing);
      if w.None? { return None; }
      if w.value != Landed {
        r := UpdateStatus(REQUEUE);
        return;
      }
      AfterLateInitIs(cfg, a.w);
      r := UpdateExternal();
    }

    static lemma AfterLateInitIs(cfg: Config, w: World)
      ensures var v := AfterLateInit(cfg, w);
              v == w.(pc := v.pc) && v.pc == AfterLateInit(cfg, v).pc
    {}

    method UpdateExternal() returns (r: Option<Result>)
      requires Valid() && version == model.rv && managed == model.local && model.pc == AfterLateInit(cfg, model).pc
      modifies `hist, `gone, `live, `creates, `now, `script, `managed, `version, `observation, `moves, `model
      ensures Ended(r)
      ensures old(Calm()) ==> Calm() && (r.None? ==> script == [])
    {
      hide Plays, Next, Calm;
      if observation.upToDate || !Policy(cfg, managed).ShouldUpdate() {
        r := UpdateStatus(Result(false, cfg.poll, false));
        return;
      }
      ghost var m := model;
      var e := Await(Updating);
      if e == Crash { return None; }
      ExternalAnswerIs(cfg, Around(m), e);
      if !e.ok {
        r := UpdateStatus(REQUEUE);
        return;
      }
      r := PublishUpdated();
    }

    method PublishUpdated() returns (r: Option<Result>)
      requires At(Publishing(AfterUpdate))
      modifies `hist, `gone, `live, `creates, `now, `script, `managed, `version, `observation, `moves, `model
      ensures Ended(r)
      ensures old(Calm()) ==> Calm() && (r.None? ==> script == [])
    {
      hide Plays, Next, Valid, Ended, Calm;
      var o := Invoke(Publishing(AfterUpdate));
      if o.None? { return None; }
      r := UpdateStatus(if o.value == Succeeds then Result(false, cfg.poll, false) else REQUEUE);
    }

    /** Write the pending stamp, create, and record the outcome. */
    method CreateExternal() returns (r: Option<Result>)
      requires At(Stamping)
      modifies `hist, `gone, `live, `creates, `now, `script, `managed, `version, `observation, `moves, `model
      ensures Ended(r)
      ensures old(Calm()) ==> Calm() && (r.None? ==> script == [])
    {
      hide Plays, Next, Valid, Ended, Calm;
      var ok := Clock(Stamping);
      if !ok { return None; }
      managed := managed.(notes := managed.notes.(pending := Some(Stamp(now))));
      var w, _ := Update(WritingPending);
      if w.None? { return None; }
      if w.value != Landed {
        r := Fail(w.value == Conflicted);
        return;
      }
      var created := Create();
      if created.None? { return None; }
      if created.value {
        r := RecordSuccess();
      } else {
        r := RecordFailure();
      }
    }

    method Create() returns (created: Option<bool>)
      requires At(Creating) && version < |hist|
      modifies `hist, `gone, `live, `creates, `now, `script, `managed, `version, `observation, `moves, `model
      ensures created.None? ==> Ended(None)
      ensures created.Some? ==> At(Recording(created.value)) && version < |hist|
      ensures old(Calm()) ==> Calm() && (created.None? ==> script == [])
    {
      hide Plays, Next, OnCreated, OnCreateFailed, Calm;
      ghost var m := model;
      var e := Await(Creating);
      if e == Crash { return None; }
      m := Around(m);
      ExternalAnswerIs(cfg, m, e);
      if e.Created? { Made(e.name, e.spec, m); } else { NotMade(m); }
      return Some(e.Created?);
    }

    method Made(name: string, spec: int, ghost m: World)
      requires IsRun() && Sees(m) && version == m.rv && managed == m.local && model == OnCreated(m, name, spec)
      modifies `live, `creates, `managed
      ensures At(Recording(true))
    {
      hide Plays;
      creates := creates + [Creation(Seconds(managed.notes.pending), version, Some(name), now)];
      live := live + {name};
      managed := managed.(notes := managed.notes.(name := Some(name)), spec := spec);
    }

    method NotMade(ghost m: World)
      requires IsRun() && Sees(m) && version == m.rv && managed == m.local && model == OnCreateFailed(m)
      modifies `creates
      ensures At(Recording(false))
    {
      hide Plays;
      creates := creates + [Creation(Seconds(managed.notes.pending), version, None, now)];
    }

    method RecordSuccess() returns (r: Option<Result>)
      requires At(Recording(true)) && version < |hist|
      modifies `hist, `gone, `live, `creates, `now, `script, `managed, `version, `observation, `moves, `model
      ensures Ended(r)
      ensures old(Calm()) ==> Calm() && (r.None? ==> script == [])
    {
      hide Plays, Next, Valid, Ended, Covers, Overlays, Answers, Calm;
      var ok := Clock(Recording(true));
      if !ok { return None; }
      managed := managed.(notes := managed.notes.(succeeded := Some(Stamp(now))));
      var c := UpdateCriticalAnnotations(true);
      match c
      case Crashed => return None;
      case GivenUp(conflict) =>
        r := Fail(conflict);
      case Persisted(_) =>
        r := PublishNew();
    }

    method PublishNew() returns (r: Option<Result>)
      requires At(Publishing(AfterCreate))
      modifies `hist, `gone, `live, `creates, `now, `script, `managed, `version, `observation, `moves, `model
      ensures Ended(r)
      ensures old(Calm()) ==> Calm() && (r.None? ==> script == [])
    {
      hide Plays, Next, Valid, Ended, Calm;
      var o := Invoke(Publishing(AfterCreate));
      if o.None? { return None; }
      r := Fail(o.value == Conflicts);
    }

    /** A failure to record the failure is not reported; the failure is. */
    method RecordFailure() returns (r: Option<Result>)
      requires At(Recording(false)) && version < |hist|
      modifies `hist, `gone, `live, `creates, `now, `script, `managed, `version, `observation, `moves, `model
      ensures Ended(r)
      ensures old(Calm()) ==> Calm() && (r.None? ==> script == [])
    {
      hide Plays, Next, Valid, Ended, Covers, Overlays, Answers, Calm;
      var ok := Clock(Recording(false));
      if !ok { return None; }
      managed := managed.(notes := managed.notes.(failed := Some(Stamp(now))));
      var c := UpdateCriticalAnnotations(false);
      if c.Crashed? { return None; }
      r := UpdateStatus(REQUEUE);
    }
  }

  // ---- what the runs promise, said of the controller ----

  lemma {:induction false} ExecJoin(cfg: Config, w: World, es: seq<Event>, fs: seq<Event>)
    ensures Exec(cfg, w, es + fs) == Exec(cfg, Exec(cfg, w, es), fs)
    decreases |es|
  {
    hide Next;
    if es == [] {
      assert es + fs == fs;
    } else {
      assert (es + fs)[1..] == es[1..] + fs;
      ExecJoin(cfg, Next(cfg, w, es[0]), es[1..], fs);
    }
  }

  /** However many reconciles have run since the object was new, at most the last
      creation has no outcome stored. */
  lemma ControllerIsSafe(c: Controller, w: World, es: seq<Event>, j: nat, k: nat)
    requires !c.cfg.deterministic && c.Valid() && Initial(w) && c.start == Exec(c.cfg, w, es)
    requires SafeRun(c.cfg, w, es + Effective(c.cfg, c.start, c.moves))
    requires j < |c.creates| && k < |c.creates| && Unrecorded(c.model, j) && Unrecorded(c.model, k)
    ensures j == k == |c.creates| - 1
  {
    hide Exec, SafeRun, Unrecorded, Effective, Replay, Played;
    var fs := Effective(c.cfg, c.start, c.moves);
    ReplayIsRun(c.cfg, c.start, c.moves);
    ExecJoin(c.cfg, w, es, fs);
    AtMostOneUnrecorded(c.cfg, w, es + fs, j, k);
  }

  /** And with a truthful Observe and a long enough grace period at most one
      resource it created is live. */
  lemma ControllerOwnsOne(c: Controller, w: World, es: seq<Event>, j: nat, k: nat)
    requires !c.cfg.deterministic && LongGrace(c.cfg) && c.Valid() && Initial(w) && c.start == Exec(c.cfg, w, es)
    requires FaithfulRun(c.cfg, w, es + Effective(c.cfg, c.start, c.moves))
    requires j < |c.creates| && k < |c.creates| && Live(c.model, j) && Live(c.model, k)
    ensures j == k
  {
    hide Exec, FaithfulRun, LongGrace, Effective, Replay, Played;
    var fs := Effective(c.cfg, c.start, c.moves);
    ReplayIsRun(c.cfg, c.start, c.moves);
    ExecJoin(c.cfg, w, es, fs);
    AtMostOneLive(c.cfg, w, es + fs, j, k);
  }
}
