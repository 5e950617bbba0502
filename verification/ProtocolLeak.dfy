/** No external resource is leaked: with a truthful Observe and a grace period
that is long enough, at most one resource created in a run is live at any time,
and none is when the finalizer is removed under a deleting policy. */
module ProtocolLeak {
  import opened Text
  import opened Meta
  import opened Protocol
  import opened ProtocolSafety

  // ---- the claims ----

  /** The resource made by the k-th creation exists. If a later creation was given
      the same name, the resource of that name is that one's. */
  predicate Live(w: World, k: nat)
    requires k < |w.creates|
  {
    && w.creates[k].name.Some? && w.creates[k].name.value in w.live
    && forall j :: k < j < |w.creates| ==> w.creates[j].name != w.creates[k].name
  }

  ghost predicate NoneLive(w: World) {
    forall k :: 0 <= k < |w.creates| ==> !Live(w, k)
  }

  /** Our finalizer was there and the step took it away. */
  predicate FinalizerRemoved(w: World, v: World) {
    w.hist != [] && v.hist != [] && FINALIZER in Current(w).finalizers && FINALIZER !in Current(v).finalizers
  }

  /** Observe misses nothing, or the grace period outlasts what it may miss, the
      time between the Observe and the check, and what the stamp loses to
      rounding. */
  predicate LongGrace(cfg: Config) {
    cfg.delay == 0 || cfg.grace >= cfg.delay + cfg.lag + SECOND - 1
  }

  // ---- the invariant ----

  predicate NamesOk(w: World) {
    && (forall k :: 0 <= k < |w.creates| ==> w.creates[k].name != Some("") && w.creates[k].at <= w.now)
    && (forall j, k :: 0 <= j < k < |w.creates| ==> w.creates[j].at <= w.creates[k].at)
  }

  /** The annotations name the resource of `c` and date its creation. */
  predicate Records(n: Notes, c: Creation) {
    && n.name == c.name
    && n.succeeded.Some? && n.succeeded.value > 0
    && c.at < (n.succeeded.value + 1) * SECOND
  }

  /** A live resource is that of the last successful creation, and either the
      current version records it or its creation is not accounted for yet. */
  ghost predicate OwnersOk(w: World)
    requires w.hist != []
  {
    forall k :: 0 <= k < |w.creates| && Live(w, k) ==>
      && (forall j :: k < j < |w.creates| ==> w.creates[j].name.None?)
      && (Records(Current(w).notes, w.creates[k]) || Unaccounted(w, k))
  }

  predicate StageOk(w: World)
    requires w.hist != []
  {
    && (w.pc.Recording? ==>
          && |w.creates| > 0
          && SameMarks(w.local.notes.(name := Current(w).notes.name), Current(w).notes)
          && w.local.notes.pending.Some?
          && (if w.pc.success then w.local.notes.name.Some? && w.creates[|w.creates| - 1].name == w.local.notes.name
              else w.creates[|w.creates| - 1].name.None? && w.local.notes.name == Current(w).notes.name))
    && (w.pc.WritingCritical? || w.pc.RereadingCritical? ==>
          && |w.creates| > 0
          && w.captured.pending.Some? && w.captured.pending == Current(w).notes.pending
          && (w.rv + 1 == |w.hist| ==> SameMarks(w.local.notes, w.captured))
          && var last := w.creates[|w.creates| - 1];
             if w.pc.success then
               && w.captured.name.Some? && w.captured.failed == Current(w).notes.failed && Records(w.captured, last)
             else
               && last.name.None? && w.captured.failed.Some?
               && w.captured.name == Current(w).notes.name && w.captured.succeeded == Current(w).notes.succeeded)
  }

  /** The reconcile has found nothing under the name in its copy. */
  predicate FoundAbsent(w: World) {
    || w.pc == Unpublishing(false) || w.pc == Finalizing(false) || w.pc.Stamping? || w.pc.WritingPending?
    || (!w.seen.present && (w.pc == Publishing(BeforeCreate) || w.pc.AddingFinalizer?))
  }

  ghost predicate AbsentOk(cfg: Config, w: World)
    requires w.hist != []
  {
    && (w.pc.Deciding? ==>
          && w.seenAt <= w.now <= w.seenAt + cfg.lag
          && (forall k :: 0 <= k < |w.creates| ==> w.creates[k].at <= w.seenAt)
          && (!w.seen.present && w.rv + 1 == |w.hist| ==>
                forall k :: 0 <= k < |w.creates| && Live(w, k) && w.creates[k].name == w.local.notes.name ==>
                  w.seenAt < w.creates[k].at + cfg.delay))
    && (FoundAbsent(w) && w.rv + 1 == |w.hist| ==> NoneLive(w))
    && (w.pc.Creating? ==> NoneLive(w))
  }

  /** The deletion paths match the policy of the copy. */
  predicate PathOk(cfg: Config, w: World) {
    && (w.pc == Unpublishing(true) || w.pc == Finalizing(true) ==> w.local.deleted && !Policy(cfg, w.local).ShouldDelete())
    && (w.pc == Unpublishing(false) || w.pc == Finalizing(false) ==> w.local.deleted && !w.seen.present)
    && (w.pc.Stamping? || w.pc.WritingPending? ==> !w.seen.present)
    && ((Cleared(w.pc) || w.pc.Initializing?) && w.local.deleted ==> Policy(cfg, w.local).ShouldDelete())
    && (w.pc.Initializing? ==> ExternalName(w.local.notes) == "")
    && (!w.pc.Idle? && !w.pc.Getting? ==> w.rv < |w.hist|)
    && (w.pc.Recording? || w.pc.WritingCritical? || w.pc.RereadingCritical? ==>
          w.local.finalizers == w.hist[w.rv].obj.finalizers)
  }

  /** What the history, the external system and the clock have to satisfy. */
  ghost predicate Books(w: World) {
    HistoryOk(w) && AccountsOk(w) && NamesOk(w) && OwnersOk(w)
  }

  /** What the reconcile under way has to satisfy. */
  ghost predicate Desk(cfg: Config, w: World)
    requires w.hist != []
  {
    StageOk(w) && AbsentOk(cfg, w) && PathOk(cfg, w)
  }

  ghost predicate Inv2(cfg: Config, w: World) {
    Books(w) && LocalOk(w) && Desk(cfg, w)
  }

  // ---- the books ----

  lemma BooksSame(w: World, v: World)
    requires Books(w)
    requires v.hist == w.hist && v.creates == w.creates && v.live <= w.live && w.now <= v.now
    ensures Books(v)
  {
    hide Latest, CreateIncomplete, Records;
    assert Stamp(w.now) <= Stamp(v.now);
    forall k | 0 <= k < |v.creates| ensures Unaccounted(v, k) <==> Unaccounted(w, k) {}
  }

  /** A stored version keeps the owners right if it records what was recorded and
      whatever it newly accounts for. */
  lemma OwnersCommit(w: World, o: Object, writer: nat)
    requires w.hist != [] && OwnersOk(w)
    requires forall k :: 0 <= k < |w.creates| && Live(w, k) && Records(Current(w).notes, w.creates[k]) ==> Records(o.notes, w.creates[k])
    requires forall k :: 0 <= k < |w.creates| && Live(w, k) && Unaccounted(w, k) ==>
               Latest(o.notes) < w.creates[k].stamp || Records(o.notes, w.creates[k])
    ensures OwnersOk(Commit(w, o, writer))
  {
    hide Latest, Records;
    var c := Commit(w, o, writer);
    if c != w {
      forall k | 0 <= k < |c.creates| && Live(c, k)
        ensures (forall j :: k < j < |c.creates| ==> c.creates[j].name.None?) && (Records(o.notes, c.creates[k]) || Unaccounted(c, k))
      {
        assert Live(w, k);
        if Unaccounted(w, k) && Latest(o.notes) < w.creates[k].stamp {
          assert forall i :: 0 <= i < |w.hist| ==> c.hist[i] == w.hist[i];
          assert Unaccounted(c, k);
        }
      }
    }
  }

  /** Storing a version with the same marks. */
  lemma BooksCommitSame(w: World, o: Object, writer: nat)
    requires Books(w) && SameMarks(o.notes, Current(w).notes)
    ensures Books(Commit(w, o, writer))
  {
    hide Unaccounted;
    CommitSameStamps(w, o, writer);
    LatestOfSame(o.notes, Current(w).notes);
    OwnersCommit(w, o, writer);
  }

  /** Giving a name to an object that has none. */
  lemma BooksCommitName(w: World, o: Object, writer: nat, n: Option<string>)
    requires Books(w) && o.notes == Current(w).notes.(name := n) && ExternalName(Current(w).notes) == ""
    ensures Books(Commit(w, o, writer))
  {
    hide Unaccounted;
    CommitSameStamps(w, o, writer);
    assert Latest(o.notes) == Latest(Current(w).notes);
    OwnersCommit(w, o, writer);
  }

  lemma BooksCommitPending(w: World, o: Object, writer: nat, p: Option<nat>)
    requires Books(w) && !CreateIncomplete(Current(w).notes)
    requires SameMarks(o.notes, Current(w).notes.(pending := p)) && StampsBy(o.notes, Stamp(w.now))
    ensures Books(Commit(w, o, writer))
  {
    hide Unaccounted;
    CommitPending(w, o, writer);
    assert Latest(o.notes) == Latest(Current(w).notes);
    OwnersCommit(w, o, writer);
  }

  lemma BooksCommitSuccess(w: World, o: Object, writer: nat)
    requires Books(w) && |w.creates| > 0
    requires StampsBy(o.notes, Stamp(w.now)) && Latest(o.notes) >= w.creates[|w.creates| - 1].stamp
    requires w.creates[|w.creates| - 1].name.Some? && Records(o.notes, w.creates[|w.creates| - 1])
    ensures Books(Commit(w, o, writer))
  {
    hide Unaccounted, Latest;
    CommitOutcome(w, o, writer);
    OwnersCommit(w, o, writer);
  }

  lemma BooksCommitFailure(w: World, o: Object, writer: nat)
    requires Books(w) && |w.creates| > 0
    requires StampsBy(o.notes, Stamp(w.now)) && Latest(o.notes) >= w.creates[|w.creates| - 1].stamp
    requires w.creates[|w.creates| - 1].name.None?
    requires o.notes.name == Current(w).notes.name && o.notes.succeeded == Current(w).notes.succeeded
    ensures Books(Commit(w, o, writer))
  {
    hide Unaccounted, Latest;
    CommitOutcome(w, o, writer);
    OwnersCommit(w, o, writer);
  }

  /** A resource is made where none was live. */
  lemma BooksCreate(w: World, v: World, c: Creation)
    requires Books(w) && CreatingOk(w) && NoneLive(w)
    requires v.hist == w.hist && v.now == w.now && v.creates == w.creates + [c]
    requires c.stamp == Seconds(w.local.notes.pending) && c.version == w.rv && c.at == w.now
    requires c.name.None? ==> v.live == w.live
    requires c.name.Some? ==> v.live == w.live + {c.name.value} && c.name.value != ""
    ensures Books(v)
  {
    CreateAccounts(w, v, c);
    UnaccountedAtFirst(w, v, c);
    forall k | 0 <= k < |w.creates| ensures !Live(v, k) { OlderIsNotLive(w, v, c, k); }
  }

  lemma OlderIsNotLive(w: World, v: World, c: Creation, k: nat)
    requires k < |w.creates| && !Live(w, k) && v.creates == w.creates + [c]
    requires v.live == w.live || (c.name.Some? && v.live == w.live + {c.name.value})
    ensures !Live(v, k)
  {
    var last := |w.creates|;
    assert v.creates[last] == c && forall j :: 0 <= j < last ==> v.creates[j] == w.creates[j];
  }

  lemma UnaccountedAtFirst(w: World, v: World, c: Creation)
    requires w.hist != [] && Books(w) && CreatingOk(w) && v.hist == w.hist && v.creates == w.creates + [c]
    requires c.stamp == Seconds(w.local.notes.pending) && c.version == w.rv
    ensures Unaccounted(v, |w.creates|)
  {
    forall i | w.rv < i < |v.hist| ensures Latest(v.hist[i].obj.notes) < c.stamp {
      LatestOfSame(w.hist[i].obj.notes, w.local.notes);
    }
  }

  // ---- the desk: steps of the environment ----

  predicate Leaving(pc: Pc) {
    pc.Idle? || pc.Getting? || pc.Reporting? || pc == Publishing(AfterCreate) || pc == Publishing(AfterUpdate)
  }

  /** Once nothing more is created or finalized there is nothing to keep. */
  lemma DeskLeaving(cfg: Config, v: World)
    requires v.hist != [] && Leaving(v.pc) && (!v.pc.Idle? && !v.pc.Getting? ==> v.rv < |v.hist|)
    ensures Desk(cfg, v) && LocalOk(v)
  {}

  /** The reconcile has not moved, and whatever was stored has the same marks. */
  lemma DeskKept(cfg: Config, w: World, v: World)
    requires w.hist != [] && Desk(cfg, w) && Untouched(w, v)
    requires v.seen == w.seen && v.seenAt == w.seenAt && v.live <= w.live
    requires SameMarks(Current(v).notes, Current(w).notes)
    requires w.pc.Deciding? ==> v.now <= v.seenAt + cfg.lag
    ensures Desk(cfg, v)
  {
    hide Records, Policy, StageOk;
    StageKept(w, v);
    if !w.pc.Idle? && !w.pc.Getting? && v.rv + 1 == |v.hist| {
      assert w.rv + 1 == |w.hist|;
      forall k | 0 <= k < |v.creates| && Live(v, k) ensures Live(w, k) {}
    }
    if w.pc.Creating? {
      forall k | 0 <= k < |v.creates| ensures !Live(v, k) { assert !Live(w, k); }
    }
  }

  lemma StageKept(w: World, v: World)
    requires w.hist != [] && StageOk(w) && Untouched(w, v)
    requires !w.pc.Idle? && !w.pc.Getting? ==> w.rv < |w.hist|
    requires SameMarks(Current(v).notes, Current(w).notes)
    ensures StageOk(v)
  {
    hide Records;
  }

  lemma Step2Env(cfg: Config, w: World, e: Event)
    requires Inv2(cfg, w) && Polite(w, e) && Faithful(cfg, w, e)
    requires e.Tick? || e.Edit? || e.Vanish?
    ensures Books(Next(cfg, w, e)) && Desk(cfg, Next(cfg, w, e))
  {
    hide Books, Desk, OwnersOk, Commit, LocalOk;
    BooksParts(w);
    var v := Next(cfg, w, e);
    match e
    case Tick(d) =>
      BooksSame(w, v);
      DeskParts(cfg, w);
      DeskKept(cfg, w, v);
    case Vanish(n) =>
      BooksSame(w, v);
      DeskParts(cfg, w);
      DeskKept(cfg, w, v);
    case Edit(o) =>
      BooksCommitSame(w, o, 0);
      CommitFacts(w, o, 0);
      DeskParts(cfg, w);
      DeskKept(cfg, w, v);
  }

  lemma BooksParts(w: World)
    requires Books(w)
    ensures HistoryOk(w) && AccountsOk(w) && NamesOk(w) && OwnersOk(w)
  {}

  lemma DeskParts(cfg: Config, w: World)
    requires w.hist != [] && Desk(cfg, w)
    ensures StageOk(w) && AbsentOk(cfg, w) && PathOk(cfg, w)
  {}

  lemma CommitFacts(w: World, o: Object, writer: nat)
    requires w.hist != []
    ensures var c := Commit(w, o, writer);
            && Untouched(w, c) && c.now == w.now && c.live == w.live && c.seen == w.seen && c.seenAt == w.seenAt
            && (c == w || (Current(c) == o && |c.hist| == |w.hist| + 1))
  {}

  // ---- the desk: steps of the reconcile ----

  lemma DeskAfterInit(cfg: Config, w: World)
    requires w.hist != [] && w.rv < |w.hist| && (w.local.deleted ==> Policy(cfg, w.local).ShouldDelete())
    ensures Desk(cfg, AfterInit(cfg, w))
  {
    hide Policy, CreateIncomplete;
  }

  lemma DeskGet(cfg: Config, w: World, i: nat)
    requires i < |w.hist|
    ensures Desk(cfg, AfterGet(cfg, w.(rv := i, local := w.hist[i].obj)))
  {
    hide AfterInit, Policy, IsPaused;
    var u := w.(rv := i, local := w.hist[i].obj);
    if !(u.local.deleted && !Policy(cfg, u.local).ShouldDelete()) { DeskAfterInit(cfg, u); }
  }

  lemma DeskReread(cfg: Config, w: World, i: nat)
    requires w.hist != [] && Desk(cfg, w) && w.pc.RereadingCritical? && i < |w.hist|
    ensures var o := w.hist[i].obj;
            Desk(cfg, w.(pc := WritingCritical(w.pc.success), rv := i, local := o.(notes := AddAnnotations(o.notes, w.captured))))
  {
    hide Policy;
  }

  /** The reconcile looks at the version that is current. What Observe says about
      a resource whose creation that version records is then the truth, unless
      the resource is younger than `delay`. */
  lemma DeskObserved(cfg: Config, w: World, v: World)
    requires Inv2(cfg, w) && w.pc.Observing? && Truthful(cfg, w, v.seen.present)
    requires v.local == w.local.(spec := v.local.spec)
    requires v == w.(pc := Deciding, seen := v.seen, seenAt := w.now, local := v.local)
    ensures Desk(cfg, v)
  {
    hide Records, OwnersOk, AccountsOk, HistoryOk, LocalOk;
    if !v.seen.present && v.rv + 1 == |v.hist| {
      forall k | 0 <= k < |v.creates| && Live(v, k) && v.creates[k].name == v.local.notes.name
        ensures v.seenAt < v.creates[k].at + cfg.delay
      {
        assert Live(w, k);
        var j :| 0 <= j < |w.creates| && w.creates[j].name.Some? && w.creates[j].name == w.local.notes.name
                 && w.now < w.creates[j].at + cfg.delay;
        assert j <= k;
      }
    }
  }

  /** The grace check: what was recorded long enough ago was seen truthfully. */
  lemma GraceIsEnough(cfg: Config, n: Notes, c: Creation, seenAt: nat, now: nat)
    requires LongGrace(cfg) && Records(n, c) && !SucceededDuring(n, now, cfg.grace)
    requires c.at <= seenAt && now <= seenAt + cfg.lag
    ensures seenAt >= c.at + cfg.delay
  {}

  lemma AbsentMeansNoneLive(cfg: Config, w: World)
    requires LongGrace(cfg) && Inv2(cfg, w) && w.pc.Deciding? && !w.seen.present && w.rv + 1 == |w.hist|
    requires !SucceededDuring(w.local.notes, w.now, cfg.grace)
    ensures NoneLive(w)
  {
    hide Records, Policy, SucceededDuring, LongGrace;
    forall k | 0 <= k < |w.creates| ensures !Live(w, k) {
      if Live(w, k) {
        assert w.local.notes == Current(w).notes && !CreateIncomplete(w.local.notes);
        assert !Unaccounted(w, k);
        assert Records(w.local.notes, w.creates[k]);
        RecordsName(w.local.notes, w.creates[k]);
        GraceIsEnough(cfg, w.local.notes, w.creates[k], w.seenAt, w.now);
        assert false;
      }
    }
  }

  lemma RecordsName(n: Notes, c: Creation)
    requires Records(n, c)
    ensures n.name == c.name
  {}

  lemma DeskDecide(cfg: Config, w: World)
    requires LongGrace(cfg) && Inv2(cfg, w) && w.pc.Deciding?
    ensures Desk(cfg, Decide(cfg, w))
  {
    hide Records, SucceededDuring, LongGrace, OwnersOk, AccountsOk, HistoryOk, NamesOk;
    var v := Decide(cfg, w);
    if FoundAbsent(v) && v.rv + 1 == |v.hist| {
      AbsentMeansNoneLive(cfg, w);
      forall k | 0 <= k < |v.creates| ensures !Live(v, k) { assert !Live(w, k); }
    }
  }

  lemma NoneLiveSame(w: World, v: World)
    requires NoneLive(w) && v.creates == w.creates && v.live == w.live
    ensures NoneLive(v)
  {
    forall k | 0 <= k < |v.creates| ensures !Live(v, k) { assert !Live(w, k); }
  }

  lemma DeskAfterFinalizer(cfg: Config, w: World)
    requires w.rv < |w.hist| && !w.local.deleted
    requires !w.seen.present && w.rv + 1 == |w.hist| ==> NoneLive(w)
    ensures Desk(cfg, AfterFinalizer(cfg, w))
  {
    hide NoneLive, Records;
    var v := AfterFinalizer(cfg, w);
    if v.pc.Stamping? && v.rv + 1 == |v.hist| { NoneLiveSame(w, v); }
  }

  lemma DeskUnpublished(cfg: Config, w: World)
    requires w.hist != [] && Desk(cfg, w) && w.pc.Unpublishing?
    ensures Desk(cfg, AfterUnpublish(w, w.pc.orphan))
  {
    hide NoneLive, Records;
    var v := AfterUnpublish(w, w.pc.orphan);
    if NoneLive(w) { NoneLiveSame(w, v); }
  }

  lemma DeskPublished(cfg: Config, w: World)
    requires w.hist != [] && Desk(cfg, w) && w.pc == Publishing(BeforeCreate) && !w.local.deleted
    ensures Desk(cfg, AfterPublish(cfg, w))
  {
    hide NoneLive, Records, AfterFinalizer;
    if NoneLive(w) { NoneLiveSame(w, Goto(w, AddingFinalizer)); }
    DeskAfterFinalizer(cfg, w);
  }

  lemma DeskCalled(cfg: Config, w: World, o: Outcome)
    requires Inv2(cfg, w)
    ensures Desk(cfg, OnCalled(cfg, w, o))
  {
    hide Books, StageOk, AbsentOk, LocalOk, Desk, AfterPublish, AfterUnpublish, Policy;
    Inv2Parts(cfg, w);
    var v := OnCalled(cfg, w, o);
    if v == w {
    } else if Leaving(v.pc) && (o != Succeeds || (w.pc.Publishing? && w.pc.stage != BeforeCreate)) {
      DeskLeaving(cfg, v);
    } else if w.pc.Unpublishing? {
      DeskUnpublished(cfg, w);
    } else if w.pc.Publishing? {
      DeskPublished(cfg, w);
    } else {
      DeskGoto(cfg, w, v.pc);
    }
  }

  lemma Inv2Parts(cfg: Config, w: World)
    requires Inv2(cfg, w)
    ensures Books(w) && w.hist != [] && LocalOk(w) && Desk(cfg, w) && PathOk(cfg, w) && Inv(w)
    ensures w.pc == Publishing(BeforeCreate) ==> !w.local.deleted
  {}

  lemma DeskGoto(cfg: Config, w: World, pc: Pc)
    requires w.hist != [] && Desk(cfg, w) && (w.pc.Resolving? || w.pc.Connecting?) && (pc.Connecting? || pc.Observing?)
    ensures Desk(cfg, Goto(w, pc))
  {
    hide NoneLive, Records;
  }

  lemma DeskStamp(cfg: Config, w: World)
    requires Inv2(cfg, w) && w.pc.Stamping?
    ensures Desk(cfg, w.(pc := WritingPending, local := w.local.(notes := w.local.notes.(pending := Some(Stamp(w.now))))))
  {
    hide Records, OwnersOk, AccountsOk, HistoryOk, NamesOk, LocalOk;
    var v := w.(pc := WritingPending, local := w.local.(notes := w.local.notes.(pending := Some(Stamp(w.now)))));
    if v.rv + 1 == |v.hist| {
      forall k | 0 <= k < |v.creates| ensures !Live(v, k) { assert !Live(w, k); }
    }
  }

  lemma DeskCreate(cfg: Config, w: World, v: World, success: bool)
    requires Inv2(cfg, w) && w.pc.Creating? && v.pc == Recording(success)
    requires v.hist == w.hist && v.rv == w.rv && |v.creates| == |w.creates| + 1
    requires v.local.notes == w.local.notes.(name := v.local.notes.name) && v.local.finalizers == w.local.finalizers
    requires success ==> v.local.notes.name.Some? && v.creates[|w.creates|].name == v.local.notes.name
    requires !success ==> v.creates[|w.creates|].name.None? && v.local.notes == w.local.notes
    ensures Desk(cfg, v)
  {
    hide Records, OwnersOk, AccountsOk, HistoryOk, NamesOk, AllAccounted, NoneLive;
    assert SameMarks(Current(w).notes, w.local.notes);
  }

  lemma DeskRecord(cfg: Config, w: World, success: bool)
    requires Inv2(cfg, w) && w.pc == Recording(success)
    ensures Desk(cfg, Record(w, success))
  {
    hide OwnersOk, AccountsOk, NoneLive, Latest, LocalOk, Policy, Unaccounted, Stamp;
    WithinSecond(w.now);
    assert w.creates[|w.creates| - 1].at <= w.now;
    assert Stamp(w.now) >= w.creates[|w.creates| - 1].stamp > 0;
  }

  lemma WithinSecond(t: nat)
    ensures Stamp(t) * SECOND <= t < (Stamp(t) + 1) * SECOND
  {}

  // ---- writes ----

  /** A write leaves the books right if what it would store does. */
  lemma BooksWrite(w: World, o: Object, f: Fault)
    requires Books(w)
    requires !w.gone && w.rv + 1 == |w.hist| ==> Books(Commit(w, o, w.round))
    ensures Books(Write(w, o, f).w)
  {
    hide Books, Commit;
    if Write(w, o, f).result == Landed { BooksSame(Commit(w, o, w.round), Write(w, o, f).w); }
  }

  lemma WriteKeepsRv(w: World, o: Object, f: Fault)
    requires w.rv < |w.hist|
    ensures Write(w, o, f).w.rv < |Write(w, o, f).w.hist|
  {}

  lemma Step2Initialize(cfg: Config, w: World, f: Fault)
    requires Inv2(cfg, w) && w.pc.Initializing?
    ensures Books(OnWrote(cfg, w, f)) && Desk(cfg, OnWrote(cfg, w, f))
  {
    hide Books, Desk, AfterInit, Write, Commit, StageOk, AbsentOk;
    Inv2Parts(cfg, w);
    var o := Named(cfg, w.local);
    var a := Write(w, o, f);
    if w.rv + 1 == |w.hist| { BooksCommitName(w, o, w.round, Some(cfg.objectName)); }
    BooksWrite(w, o, f);
    WriteEffect(w, o, f);
    WriteKeepsRv(w, o, f);
    var v := OnWrote(cfg, w, f);
    if a.result == Landed {
      DeskAfterInit(cfg, a.w);
      AfterInitKeeps(cfg, a.w);
      BooksSame(a.w, v);
    } else {
      BooksSame(a.w, v);
      DeskLeaving(cfg, v);
    }
  }

  lemma AfterInitKeeps(cfg: Config, w: World)
    ensures var v := AfterInit(cfg, w); v.hist == w.hist && v.creates == w.creates && v.live == w.live && v.now == w.now
  {}

  lemma AfterFinalizerKeeps(cfg: Config, w: World)
    ensures var v := AfterFinalizer(cfg, w); v.hist == w.hist && v.creates == w.creates && v.live == w.live && v.now == w.now
  {}

  lemma Step2Finalize(cfg: Config, w: World, f: Fault)
    requires Inv2(cfg, w) && w.pc.Finalizing?
    ensures Books(OnWrote(cfg, w, f)) && Desk(cfg, OnWrote(cfg, w, f))
  {
    hide Books, Desk, Write, Commit, StageOk, AbsentOk;
    Inv2Parts(cfg, w);
    var o := w.local.(finalizers := w.local.finalizers - {FINALIZER});
    if w.rv + 1 == |w.hist| { BooksCommitSame(w, o, w.round); }
    BooksWrite(w, o, f);
    WriteKeepsRv(w, o, f);
    var v := OnWrote(cfg, w, f);
    BooksSame(Write(w, o, f).w, v);
    DeskLeaving(cfg, v);
  }

  lemma Step2AddFinalizer(cfg: Config, w: World, f: Fault)
    requires Inv2(cfg, w) && w.pc.AddingFinalizer?
    ensures Books(OnWrote(cfg, w, f)) && Desk(cfg, OnWrote(cfg, w, f))
  {
    hide Books, AfterFinalizer, Write, Commit, StageOk, NoneLive, PathOk;
    Inv2Parts(cfg, w);
    var o := w.local.(finalizers := w.local.finalizers + {FINALIZER});
    var a := Write(w, o, f);
    if w.rv + 1 == |w.hist| { BooksCommitSame(w, o, w.round); }
    BooksWrite(w, o, f);
    WriteEffect(w, o, f);
    WriteKeepsRv(w, o, f);
    WriteKeepsExternal(w, o, f);
    var v := OnWrote(cfg, w, f);
    if a.result == Landed {
      if NoneLive(w) { NoneLiveSame(w, a.w); }
      DeskAfterFinalizer(cfg, a.w);
      AfterFinalizerKeeps(cfg, a.w);
      BooksSame(a.w, v);
    } else {
      BooksSame(a.w, v);
      DeskLeaving(cfg, v);
    }
  }

  lemma Step2WritePending(cfg: Config, w: World, f: Fault)
    requires Inv2(cfg, w) && w.pc.WritingPending?
    ensures Books(OnWrote(cfg, w, f)) && Desk(cfg, OnWrote(cfg, w, f))
  {
    hide Books, Write, Commit, StageOk, NoneLive, PathOk;
    Inv2Parts(cfg, w);
    var o := w.local;
    var a := Write(w, o, f);
    BooksParts(w);
    PendingFacts(w);
    if w.rv + 1 == |w.hist| { BooksCommitPending(w, o, w.round, o.notes.pending); }
    BooksWrite(w, o, f);
    WriteEffect(w, o, f);
    WriteKeepsRv(w, o, f);
    WriteKeepsExternal(w, o, f);
    var v := OnWrote(cfg, w, f);
    BooksSame(a.w, v);
    if a.result == Landed { DeskCreating(cfg, w, v); } else { DeskLeaving(cfg, v); }
  }

  lemma DeskCreating(cfg: Config, w: World, v: World)
    requires v.hist != [] && NoneLive(w) && v.creates == w.creates && v.live == w.live
    requires v.pc.Creating? && v.rv < |v.hist|
    ensures Desk(cfg, v)
  {
    hide NoneLive, Records;
    NoneLiveSame(w, v);
  }

  lemma Step2LateInit(cfg: Config, w: World, f: Fault)
    requires Inv2(cfg, w) && w.pc.LateInitializing?
    ensures Books(OnWrote(cfg, w, f)) && Desk(cfg, OnWrote(cfg, w, f))
  {
    hide Books, Write, Commit, StageOk, AbsentOk, Desk, Policy, PathOk;
    Inv2Parts(cfg, w);
    var a, v := Write(w, w.local, f), OnWrote(cfg, w, f);
    if w.rv + 1 == |w.hist| { BooksCommitSame(w, w.local, w.round); }
    BooksWrite(w, w.local, f);
    BooksSame(a.w, v);
    WriteKeepsRv(w, w.local, f);
    WriteEffect(w, w.local, f);
    if v.pc.Updating? { DeskUpdating(cfg, w, v); } else { DeskLeaving(cfg, v); }
  }

  lemma DeskUpdating(cfg: Config, w: World, v: World)
    requires v.hist != [] && v.pc.Updating? && v.rv < |v.hist| && Cleared(w.pc) && PathOk(cfg, w) && v.local == w.local
    ensures Desk(cfg, v)
  {
    hide Records, NoneLive;
  }

  lemma Step2WriteCritical(cfg: Config, w: World, f: Fault)
    requires Inv2(cfg, w) && w.pc.WritingCritical?
    ensures Books(OnWrote(cfg, w, f)) && Desk(cfg, OnWrote(cfg, w, f))
  {
    hide Books, Write, Commit, Desk, LocalOk, PathOk;
    var a, v := Write(w, w.local, f), OnWrote(cfg, w, f);
    if w.rv + 1 == |w.hist| { CriticalBooks(cfg, w); }
    BooksWrite(w, w.local, f);
    BooksSame(a.w, v);
    CriticalWriteDesk(cfg, w, f, v);
  }

  lemma CriticalWriteDesk(cfg: Config, w: World, f: Fault, v: World)
    requires Inv2(cfg, w) && w.pc.WritingCritical? && v == OnWrote(cfg, w, f)
    ensures Desk(cfg, v)
  {
    hide Books, Write, Commit, Desk, LocalOk, PathOk;
    Inv2Parts(cfg, w);
    RvInRange(cfg, w);
    WriteKeepsRv(w, w.local, f);
    var a := Write(w, w.local, f);
    if a.result == Landed {
      DeskLeaving(cfg, v);
    } else {
      WriteEffect(w, w.local, f);
      CommitFacts(w, w.local, w.round);
      CriticalDesk(cfg, w, a.w, v);
    }
  }

  lemma RvInRange(cfg: Config, w: World)
    requires PathOk(cfg, w) && !w.pc.Idle? && !w.pc.Getting?
    ensures w.rv < |w.hist|
  {}

  lemma CriticalBooks(cfg: Config, w: World)
    requires Inv2(cfg, w) && w.pc.WritingCritical? && w.rv + 1 == |w.hist|
    ensures Books(Commit(w, w.local, w.round))
  {
    hide Books, Commit, AbsentOk, PathOk;
    Inv2Parts(cfg, w);
    var o := w.local;
    OutcomeIsLatest(o.notes, w.pc.success);
    if w.pc.success { BooksCommitSuccess(w, o, w.round); } else { BooksCommitFailure(w, o, w.round); }
  }

  /** A write of the outcome that did not return success is tried again. */
  lemma CriticalDesk(cfg: Config, w: World, c: World, v: World)
    requires w.hist != [] && Desk(cfg, w) && w.pc.WritingCritical? && Untouched(w, c)
    requires c == w || (w.rv + 1 == |w.hist| && (Current(c) == w.local || c == w))
    requires v == Goto(c, WritingCritical(w.pc.success)) || v == Goto(c, RereadingCritical(w.pc.success))
    ensures Desk(cfg, v)
  {
    hide NoneLive;
  }

  lemma Step2Report(cfg: Config, w: World, f: Fault, status: int)
    requires Inv2(cfg, w) && w.pc.Reporting?
    ensures Books(OnReported(w, w.pc.res, f, status)) && Desk(cfg, OnReported(w, w.pc.res, f, status))
  {
    hide Books, Desk, Write, Commit, StageOk, AbsentOk, LocalOk;
    Inv2Parts(cfg, w);
    var o := Current(w).(status := status);
    BooksCommitSame(w, o, w.round);
    BooksWrite(w, o, f);
    WriteKeepsRv(w, o, f);
    var v := OnReported(w, w.pc.res, f, status);
    BooksSame(Write(w, o, f).w, v);
    DeskLeaving(cfg, v);
  }

  // ---- every step, every run ----

  lemma Step2Got(cfg: Config, w: World, r: Read)
    requires Inv2(cfg, w)
    ensures Books(OnGot(cfg, w, r)) && Desk(cfg, OnGot(cfg, w, r))
  {
    hide Books, Desk, AfterGet, StageOk, AbsentOk, LocalOk, AddAnnotations;
    Inv2Parts(cfg, w);
    var v := OnGot(cfg, w, r);
    if v == w { return; }
    GotKeepsHistory(cfg, w, r);
    GotKeepsExternal(cfg, w, r);
    BooksSame(w, v);
    if w.pc.Getting? {
      if r.Read? { DeskGet(cfg, w, r.version); } else { DeskLeaving(cfg, v); }
    } else if r.Read? {
      DeskReread(cfg, w, r.version);
    } else {
      CriticalRetry(cfg, w, v);
    }
  }

  lemma CriticalRetry(cfg: Config, w: World, v: World)
    requires w.hist != [] && Desk(cfg, w) && w.pc.RereadingCritical? && v == Goto(w, WritingCritical(w.pc.success))
    ensures Desk(cfg, v)
  {
    hide NoneLive, Records;
  }

  lemma GotKeepsHistory(cfg: Config, w: World, r: Read)
    ensures OnGot(cfg, w, r).hist == w.hist
  {}

  lemma CalledKeepsHistory(cfg: Config, w: World, o: Outcome)
    ensures OnCalled(cfg, w, o).hist == w.hist
  {}

  lemma Step2Wrote(cfg: Config, w: World, f: Fault)
    requires Inv2(cfg, w)
    ensures Books(OnWrote(cfg, w, f)) && Desk(cfg, OnWrote(cfg, w, f))
  {
    hide Books, Desk, LocalOk, OnWrote;
    match w.pc
    case Initializing => Step2Initialize(cfg, w, f);
    case Finalizing(_) => Step2Finalize(cfg, w, f);
    case AddingFinalizer => Step2AddFinalizer(cfg, w, f);
    case WritingPending => Step2WritePending(cfg, w, f);
    case WritingCritical(_) => Step2WriteCritical(cfg, w, f);
    case LateInitializing => Step2LateInit(cfg, w, f);
    case _ => NothingWritten(cfg, w, f);
  }

  lemma Step2Proceed(cfg: Config, w: World)
    requires LongGrace(cfg) && Inv2(cfg, w)
    ensures Books(OnProceed(cfg, w)) && Desk(cfg, OnProceed(cfg, w))
  {
    hide Books, Desk, LocalOk, LongGrace, Decide, Record;
    var v := OnProceed(cfg, w);
    ProceedKeeps(cfg, w);
    BooksSame(w, v);
    match w.pc
    case Deciding => DeskDecide(cfg, w);
    case Stamping => DeskStamp(cfg, w);
    case Recording(s) => DeskRecord(cfg, w, s);
    case _ =>
  }

  lemma ProceedKeeps(cfg: Config, w: World)
    ensures OnProceed(cfg, w).hist == w.hist && SameExternal(w, OnProceed(cfg, w))
  {}

  /** The calls that reach the external system. */
  lemma Step2Call(cfg: Config, w: World, e: Event)
    requires Inv2(cfg, w) && Faithful(cfg, w, e)
    requires e.Observed? || e.ObserveFailed? || e.Created? || e.CreateFailed? || e.Deleted? || e.Updated? || e.GaveUp?
    ensures Books(Next(cfg, w, e)) && Desk(cfg, Next(cfg, w, e))
  {
    hide Books, StageOk, AbsentOk, Desk, LocalOk, Inv, PathOk, OnGot, OnWrote, OnCalled, OnProceed, OnReported,
      OnCreated, OnCreateFailed;
    Inv2Parts(cfg, w);
    var v := Next(cfg, w, e);
    if v == w {
    } else if e.Observed? {
      BooksSame(w, v);
      DeskObserved(cfg, w, v);
    } else if e.Created? {
      Step2Created(cfg, w, e.name, e.spec);
    } else if e.CreateFailed? {
      Step2CreateFailed(cfg, w);
    } else {
      BooksSame(w, v);
      RvInRange(cfg, w);
      DeskLeaving(cfg, v);
    }
  }

  lemma Step2Created(cfg: Config, w: World, name: string, spec: int)
    requires Inv2(cfg, w) && w.pc.Creating? && Faithful(cfg, w, Created(name, spec))
    ensures Books(OnCreated(w, name, spec)) && Desk(cfg, OnCreated(w, name, spec))
  {
    hide Books, StageOk, AbsentOk, Desk, PathOk, CreatingOk;
    Inv2Parts(cfg, w);
    var v := OnCreated(w, name, spec);
    NoneLiveAtCreate(cfg, w);
    BooksCreate(w, v, v.creates[|w.creates|]);
    DeskCreate(cfg, w, v, true);
  }

  lemma Step2CreateFailed(cfg: Config, w: World)
    requires Inv2(cfg, w) && w.pc.Creating?
    ensures Books(OnCreateFailed(w)) && Desk(cfg, OnCreateFailed(w))
  {
    hide Books, StageOk, AbsentOk, Desk, PathOk, CreatingOk;
    Inv2Parts(cfg, w);
    var v := OnCreateFailed(w);
    NoneLiveAtCreate(cfg, w);
    BooksCreate(w, v, v.creates[|w.creates|]);
    DeskCreate(cfg, w, v, false);
  }

  lemma NoneLiveAtCreate(cfg: Config, w: World)
    requires w.hist != [] && Desk(cfg, w) && w.pc.Creating?
    ensures NoneLive(w)
  {}

  lemma Step2Leave(cfg: Config, w: World, v: World)
    requires Books(w) && v.hist == w.hist && v.creates == w.creates && v.live == w.live && v.now == w.now
    requires v.pc.Idle? || v.pc.Getting?
    ensures Books(v) && Desk(cfg, v)
  {
    BooksSame(w, v);
    DeskLeaving(cfg, v);
  }

  /** The invariant is kept by every step. */
  lemma StepKeepsInv2(cfg: Config, w: World, e: Event)
    requires !cfg.deterministic && LongGrace(cfg)
    requires Inv2(cfg, w) && Polite(w, e) && Timely(w, e) && Faithful(cfg, w, e)
    ensures Inv2(cfg, Next(cfg, w, e))
  {
    hide Books, Desk, LocalOk, Polite, Timely, Faithful, OnGot, OnWrote, OnCalled, OnProceed, OnReported, Commit,
      OnGaveUp, OnCreated, OnCreateFailed, OnDeleted, OnUpdated;
    Inv2Parts(cfg, w);
    StepKeepsInv(cfg, w, e);
    var v := Next(cfg, w, e);
    match e
    case Tick(d) => Step2Env(cfg, w, e);
    case Edit(o) => Step2Env(cfg, w, e);
    case Vanish(n) => Step2Env(cfg, w, e);
    case Start => if w.pc.Idle? { Step2Leave(cfg, w, v); }
    case Crash => Step2Leave(cfg, w, v);
    case Got(r) => Step2Got(cfg, w, r);
    case Wrote(f) => Step2Wrote(cfg, w, f);
    case Reported(f, status) => if w.pc.Reporting? { Step2Report(cfg, w, f, status); }
    case Called(o) =>
      DeskCalled(cfg, w, o);
      CalledKeepsHistory(cfg, w, o);
      CalledKeepsExternal(cfg, w, o);
      BooksSame(w, v);
    case Proceed => Step2Proceed(cfg, w);
    case _ => Step2Call(cfg, w, e);
  }

  lemma InitialInv2(cfg: Config, w: World)
    requires Initial(w)
    ensures Inv2(cfg, w)
  {}

  lemma {:induction false} RunKeepsInv2(cfg: Config, w: World, es: seq<Event>)
    requires !cfg.deterministic && LongGrace(cfg) && Inv2(cfg, w) && FaithfulRun(cfg, w, es)
    ensures Inv2(cfg, Exec(cfg, w, es))
    decreases |es|
  {
    hide Inv2, Next, LongGrace;
    if es != [] {
      StepKeepsInv2(cfg, w, es[0]);
      RunKeepsInv2(cfg, Next(cfg, w, es[0]), es[1..]);
    }
  }

  // ---- what follows for every run ----

  /** At most one resource created in the run is live, at any time. */
  lemma AtMostOneLive(cfg: Config, w: World, es: seq<Event>, j: nat, k: nat)
    requires !cfg.deterministic && LongGrace(cfg) && Initial(w) && FaithfulRun(cfg, w, es)
    requires j < |Exec(cfg, w, es).creates| && k < |Exec(cfg, w, es).creates|
    requires Live(Exec(cfg, w, es), j) && Live(Exec(cfg, w, es), k)
    ensures j == k
  {
    hide Exec, FaithfulRun, LocalOk, Desk, AccountsOk, HistoryOk, NamesOk;
    InitialInv2(cfg, w);
    RunKeepsInv2(cfg, w, es);
  }

  /** Whatever step takes our finalizer away from an object whose policy is to
      delete, no resource created in the run is left. */
  lemma NoLeakAtFinalization(cfg: Config, w: World, es: seq<Event>, e: Event)
    requires !cfg.deterministic && LongGrace(cfg) && Initial(w) && FaithfulRun(cfg, w, es + [e])
    requires var u := Exec(cfg, w, es);
             && FinalizerRemoved(u, Next(cfg, u, e))
             && Policy(cfg, Current(u)).ShouldDelete()
    ensures NoneLive(Next(cfg, Exec(cfg, w, es), e))
  {
    var u := Exec(cfg, w, es);
    FaithfulPrefix(cfg, w, es, e);
    InitialInv2(cfg, w);
    RunKeepsInv2(cfg, w, es);
    HeldByInv2(cfg, u);
    RemovalIsFinalizing(cfg, u, e);
    FinalizingIsClean(cfg, u, e);
  }

  // ---- the same, told by names ----

  /** A name some creation was given exists. */
  predicate NameLive(w: World, k: nat)
    requires k < |w.creates|
  {
    w.creates[k].name.Some? && w.creates[k].name.value in w.live
  }

  /** The last creation that was given the name has the resource. */
  lemma {:induction false} OwnerOfName(w: World, k: nat) returns (l: nat)
    requires k < |w.creates| && NameLive(w, k)
    ensures k <= l < |w.creates| && w.creates[l].name == w.creates[k].name && Live(w, l)
    decreases |w.creates| - k
  {
    if j :| k < j < |w.creates| && w.creates[j].name == w.creates[k].name {
      l := OwnerOfName(w, j);
    } else {
      l := k;
    }
  }

  /** At most one of all the names given in the run exists, at any time. */
  lemma AtMostOneName(cfg: Config, w: World, es: seq<Event>, j: nat, k: nat)
    requires !cfg.deterministic && LongGrace(cfg) && Initial(w) && FaithfulRun(cfg, w, es)
    requires j < |Exec(cfg, w, es).creates| && k < |Exec(cfg, w, es).creates|
    requires NameLive(Exec(cfg, w, es), j) && NameLive(Exec(cfg, w, es), k)
    ensures Exec(cfg, w, es).creates[j].name == Exec(cfg, w, es).creates[k].name
  {
    hide Exec, FaithfulRun, LongGrace, Initial;
    var u := Exec(cfg, w, es);
    var l := OwnerOfName(u, j);
    var m := OwnerOfName(u, k);
    AtMostOneLive(cfg, w, es, l, m);
  }

  /** When nothing is live, none of the names given in the run exists. */
  lemma NoneLiveByName(w: World)
    ensures NoneLive(w) <==> forall k :: 0 <= k < |w.creates| ==> !NameLive(w, k)
  {
    if NoneLive(w) {
      forall k | 0 <= k < |w.creates| ensures !NameLive(w, k) {
        if NameLive(w, k) { var l := OwnerOfName(w, k); }
      }
    } else {
      var k :| 0 <= k < |w.creates| && Live(w, k);
      assert NameLive(w, k);
    }
  }

  /** No name given in the run is left when the finalizer is removed under a
      deleting policy. */
  lemma NoNameLeftAtFinalization(cfg: Config, w: World, es: seq<Event>, e: Event, k: nat)
    requires !cfg.deterministic && LongGrace(cfg) && Initial(w) && FaithfulRun(cfg, w, es + [e])
    requires var u := Exec(cfg, w, es);
             && FinalizerRemoved(u, Next(cfg, u, e))
             && Policy(cfg, Current(u)).ShouldDelete()
    requires k < |Next(cfg, Exec(cfg, w, es), e).creates|
    ensures !NameLive(Next(cfg, Exec(cfg, w, es), e), k)
  {
    hide Exec, Next, FaithfulRun, LongGrace, Initial, NoneLive, NameLive;
    NoLeakAtFinalization(cfg, w, es, e);
    NoneLiveByName(Next(cfg, Exec(cfg, w, es), e));
  }

  lemma {:induction false} FaithfulPrefix(cfg: Config, w: World, es: seq<Event>, e: Event)
    requires FaithfulRun(cfg, w, es + [e])
    ensures FaithfulRun(cfg, w, es)
    ensures Polite(Exec(cfg, w, es), e) && Timely(Exec(cfg, w, es), e) && Faithful(cfg, Exec(cfg, w, es), e)
    decreases |es|
  {
    hide Next, Polite, Timely, Faithful;
    if es == [] {
      assert es + [e] == [e];
    } else {
      assert (es + [e])[0] == es[0] && (es + [e])[1..] == es[1..] + [e];
      FaithfulPrefix(cfg, Next(cfg, w, es[0]), es[1..], e);
    }
  }

  /** Whatever a reconcile is about to write has the finalizers of the version it
      is of, or adds or removes ours. */
  predicate HeldForWriting(w: World) {
    w.pc.Initializing? || w.pc.Finalizing? || w.pc.AddingFinalizer? || w.pc.WritingPending? || w.pc.WritingCritical?
    || w.pc.LateInitializing? ==>
      w.rv < |w.hist| && w.local.finalizers == w.hist[w.rv].obj.finalizers
  }

  lemma HeldByInv2(cfg: Config, w: World)
    requires Inv2(cfg, w)
    ensures w.hist != [] && HeldForWriting(w)
  {
    hide Books, StageOk, AbsentOk, CapturedOk, AllAccounted;
    Inv2Parts(cfg, w);
  }

  /** Only the write of the finalizing step takes our finalizer away. */
  lemma RemovalIsFinalizing(cfg: Config, w: World, e: Event)
    requires w.hist != [] && HeldForWriting(w) && Polite(w, e) && FinalizerRemoved(w, Next(cfg, w, e))
    ensures w.pc.Finalizing? && e.Wrote? && w.rv + 1 == |w.hist|
  {
    hide Commit, OnGot, OnWrote, OnCalled, OnProceed, OnGaveUp, OnCreated, OnCreateFailed, OnDeleted, OnUpdated, Write;
    match e
    case Got(r) => GotKeepsHistory(cfg, w, r);
    case Called(o) => CalledKeepsHistory(cfg, w, o);
    case Edit(o) => CommitFacts(w, o, 0);
    case Wrote(f) => WroteFinalizer(cfg, w, f);
    case Reported(f, status) => if w.pc.Reporting? { ReportedFinalizer(w, f, status); }
    case Proceed => ProceedKeeps(cfg, w);
    case _ => CallKeepsHistory(cfg, w, e);
  }

  lemma CallKeepsHistory(cfg: Config, w: World, e: Event)
    requires !(e.Got? || e.Called? || e.Edit? || e.Wrote? || e.Reported? || e.Proceed?)
    ensures Next(cfg, w, e).hist == w.hist
  {
    hide OnGot, OnWrote, OnCalled, OnProceed, Commit;
  }

  lemma ReportedFinalizer(w: World, f: Fault, status: int)
    requires w.hist != [] && w.pc.Reporting?
    ensures var v := OnReported(w, w.pc.res, f, status); v.hist != [] && Current(v).finalizers == Current(w).finalizers
  {
    hide Write, Commit;
    var o := Current(w).(status := status);
    WriteEffect(w, o, f);
    CommitFacts(w, o, w.round);
  }

  /** What a write leaves as the current version. */
  lemma WriteCurrent(w: World, o: Object, f: Fault)
    requires w.hist != []
    ensures var a := Write(w, o, f);
            a.w.hist != [] && (a.w.hist == w.hist || (w.rv + 1 == |w.hist| && Current(a.w) == o))
  {
    hide Write, Commit;
    WriteEffect(w, o, f);
    CommitFacts(w, o, w.round);
  }

  lemma WroteFinalizer(cfg: Config, w: World, f: Fault)
    requires w.hist != [] && HeldForWriting(w) && FinalizerRemoved(w, OnWrote(cfg, w, f))
    ensures w.pc.Finalizing? && w.rv + 1 == |w.hist|
  {
    hide Write, Commit, AfterInit, AfterFinalizer, AfterLateInit;
    var l := w.local;
    match w.pc
    case Initializing =>
      WriteCurrent(w, Named(cfg, l), f);
      AfterInitKeeps(cfg, Write(w, Named(cfg, l), f).w);
    case AddingFinalizer =>
      WriteCurrent(w, l.(finalizers := l.finalizers + {FINALIZER}), f);
      AfterFinalizerKeeps(cfg, Write(w, l.(finalizers := l.finalizers + {FINALIZER}), f).w);
    case Finalizing(_) => WriteCurrent(w, l.(finalizers := l.finalizers - {FINALIZER}), f);
    case LateInitializing =>
      WriteCurrent(w, l, f);
      LateInitKeepsHistory(cfg, Write(w, l, f).w);
    case _ => WriteCurrent(w, l, f);
  }

  lemma LateInitKeepsHistory(cfg: Config, w: World)
    ensures AfterLateInit(cfg, w).hist == w.hist
  {}

  lemma FinalizingIsClean(cfg: Config, w: World, e: Event)
    requires Inv2(cfg, w) && w.pc.Finalizing? && e.Wrote? && w.rv + 1 == |w.hist|
    requires Policy(cfg, Current(w)).ShouldDelete()
    ensures NoneLive(Next(cfg, w, e))
  {
    hide Books, StageOk, NoneLive, OnWrote;
    WroteKeepsExternal(cfg, w, e.fault);
    NoneLiveSame(w, Next(cfg, w, e));
  }
}
