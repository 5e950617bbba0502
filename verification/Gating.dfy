/** Callbacks that run once, when all the conditions they depend on are true
(`pkg/gate/gate.go`).

A callback is known by its ticket, the number of registrations before it. Starting
a callback appends its ticket to `started`. The mutex makes three steps atomic:
adding a callback, setting a condition, and processing. A caller that has written
but not yet processed is pending; any number of callers may be. */
module Gating {

  datatype Gated<T> = Gated(ticket: nat, depends: seq<T>, released: bool)

  /** Every dependency has been set to true. */
  predicate Open<T(==)>(satisfied: map<T, bool>, g: Gated<T>) {
    forall d :: d in g.depends ==> d in satisfied && satisfied[d]
  }

  /** The tickets of the callbacks that may run, oldest first. */
  function Ready<T(==)>(satisfied: map<T, bool>, fns: seq<Gated<T>>): seq<nat> {
    if fns == [] then []
    else
      var last := |fns| - 1;
      Ready(satisfied, fns[..last]) + if Open(satisfied, fns[last]) then [fns[last].ticket] else []
  }

  /** The callbacks that must wait, oldest first. */
  function Waiting<T(==)>(satisfied: map<T, bool>, fns: seq<Gated<T>>): seq<Gated<T>> {
    if fns == [] then []
    else
      var last := |fns| - 1;
      Waiting(satisfied, fns[..last]) + if Open(satisfied, fns[last]) then [] else [fns[last]]
  }

  predicate NoneReleased<T>(fns: seq<Gated<T>>) {
    forall i :: 0 <= i < |fns| ==> !fns[i].released
  }

  // ---- the locked steps of any number of callers ----

  /** The gate, what each ticket depends on, and how many callers are pending. */
  datatype State<T> = State(
    satisfied: map<T, bool>,
    depends: seq<seq<T>>,
    fns: seq<Gated<T>>,
    started: seq<nat>,
    pending: nat)

  datatype Event<T> = Adds(depends: seq<T>) | Marks(condition: T, value: bool) | Processes

  function Empty<T>(): State<T> {
    State(map[], [], [], [], 0)
  }

  /** One locked step of one caller. Processing needs a caller that is pending. */
  function Step<T(==)>(s: State<T>, e: Event<T>): State<T> {
    match e
    case Adds(depends) =>
      s.(depends := s.depends + [depends], fns := s.fns + [Gated(|s.depends|, depends, false)], pending := s.pending + 1)
    case Marks(c, v) =>
      if c in s.satisfied && s.satisfied[c] == v then s
      else s.(satisfied := s.satisfied[c := v], pending := s.pending + 1)
    case Processes =>
      if s.pending == 0 then s
      else s.(fns := Waiting(s.satisfied, s.fns), started := s.started + Ready(s.satisfied, s.fns), pending := s.pending - 1)
  }

  function Run<T(==)>(s: State<T>, es: seq<Event<T>>): State<T>
    decreases |es|
  {
    if es == [] then s else Run(Step(s, es[0]), es[1..])
  }

  // ---- the gate under its mutex ----

  method AllTrue<T(==)>(satisfied: map<T, bool>, g: Gated<T>) returns (release: bool)
    ensures release <==> Open(satisfied, g)
  {
    release := true;
    for k := 0 to |g.depends|
      invariant release <==> forall d :: d in g.depends[..k] ==> d in satisfied && satisfied[d]
    {
      var dep := g.depends[k];
      if !(dep in satisfied && satisfied[dep]) { release := false; }
    }
    assert g.depends[..|g.depends|] == g.depends;
  }

  class Gate<T(==)> {
    var satisfied: map<T, bool>
    var fns: seq<Gated<T>>
    var registered: nat
    var started: seq<nat>
    // what each ticket depends on, and the callers that have yet to process
    ghost var depends: seq<seq<T>>
    ghost var pending: nat

    ghost predicate Valid()
      reads this
    {
      registered == |depends| && NoneReleased(fns)
    }

    ghost function Now(): State<T>
      reads this
    {
      State(satisfied, depends, fns, started, pending)
    }

    constructor ()
      ensures Valid() && Now() == Empty()
    {
      satisfied, fns, registered, started := map[], [], 0, [];
      depends, pending := [], 0;
    }

    /** The locked part of Register. */
    method Add(conditions: seq<T>)
      requires Valid()
      modifies this
      ensures Valid() && Now() == Step(old(Now()), Adds(conditions))
    {
      fns := fns + [Gated(registered, conditions, false)];
      registered := registered + 1;
      depends, pending := depends + [conditions], pending + 1;
    }

    /** The locked part of Set. */
    method Mark(condition: T, value: bool) returns (updated: bool)
      requires Valid()
      modifies this
      ensures Valid() && Now() == Step(old(Now()), Marks(condition, value))
      ensures satisfied == old(satisfied)[condition := value]
      ensures updated <==> satisfied != old(satisfied)
    {
      updated := false;
      if condition !in satisfied || satisfied[condition] != value {
        updated := true;
        satisfied := satisfied[condition := value];
        pending := pending + 1;
      }
    }

    /** Start what may run and keep what must wait. */
    method Process()
      requires Valid() && pending > 0
      modifies this
      ensures Valid() && Now() == Step(old(Now()), Processes)
    {
      hide Open;
      for i := 0 to |fns|
        invariant |fns| == |old(fns)|
        invariant forall j :: 0 <= j < |fns| ==> fns[j] == old(fns)[j].(released := j < i && Open(satisfied, old(fns)[j]))
        invariant started == old(started) + Ready(satisfied, old(fns)[..i])
        invariant unchanged(`satisfied, `registered, `depends, `pending)
      {
        var release := AllTrue(satisfied, fns[i]);
        assert old(fns)[..i + 1][..i] == old(fns)[..i];
        if release {
          fns := fns[i := fns[i].(released := true)];
          started := started + [fns[i].ticket];
        }
      }
      assert old(fns)[..|old(fns)|] == old(fns);
      CollectGarbage(old(fns));
      WaitingIsFresh(satisfied, old(fns));
      pending := pending - 1;
    }

    /** Remove the released callbacks. */
    method CollectGarbage(ghost was: seq<Gated<T>>)
      requires |fns| == |was| && NoneReleased(was)
      requires forall j :: 0 <= j < |fns| ==> fns[j] == was[j].(released := Open(satisfied, was[j]))
      modifies `fns
      ensures fns == Waiting(satisfied, was)
    {
      var kept := [];
      for i := 0 to |fns|
        invariant fns == old(fns) && kept == Waiting(satisfied, was[..i])
      {
        assert was[..i + 1][..i] == was[..i];
        if !fns[i].released { kept := kept + [fns[i]]; }
      }
      assert was[..|was|] == was;
      fns := kept;
    }

    /** Called when no other caller gets in between. */
    method Register(conditions: seq<T>)
      requires Valid()
      modifies this
      ensures Valid() && Now() == Step(Step(old(Now()), Adds(conditions)), Processes)
    {
      Add(conditions);
      Process();
    }

    method Set(condition: T, value: bool) returns (updated: bool)
      requires Valid()
      modifies this
      ensures updated <==> satisfied != old(satisfied)
      ensures Valid()
      ensures Now() == if updated then Step(Step(old(Now()), Marks(condition, value)), Processes) else old(Now())
    {
      updated := Mark(condition, value);
      if updated { Process(); }
    }
  }

  lemma {:induction false} WaitingIsFresh<T>(satisfied: map<T, bool>, fns: seq<Gated<T>>)
    requires NoneReleased(fns)
    ensures NoneReleased(Waiting(satisfied, fns))
  {
    if fns != [] { WaitingIsFresh(satisfied, fns[..|fns| - 1]); }
  }

  // ---- what every interleaving keeps ----

  function Tickets<T>(fns: seq<Gated<T>>): seq<nat> {
    seq(|fns|, i requires 0 <= i < |fns| => fns[i].ticket)
  }

  function Numbers(n: nat): multiset<nat> {
    if n == 0 then multiset{} else Numbers(n - 1) + multiset{n - 1}
  }

  /** Every ticket given out is either started or waiting, once. */
  predicate Conserved<T>(s: State<T>) {
    multiset(s.started) + multiset(Tickets(s.fns)) == Numbers(|s.depends|)
  }

  predicate Described<T>(s: State<T>) {
    forall i :: 0 <= i < |s.fns| ==>
      !s.fns[i].released && s.fns[i].ticket < |s.depends| && s.fns[i].depends == s.depends[s.fns[i].ticket]
  }

  /** Nobody is pending only if nothing is left that could run. */
  predicate NoLostWakeup<T(==)>(s: State<T>) {
    s.pending == 0 ==> forall i :: 0 <= i < |s.fns| ==> !Open(s.satisfied, s.fns[i])
  }

  predicate GateOk<T(==)>(s: State<T>) {
    Conserved(s) && Described(s) && NoLostWakeup(s)
  }

  lemma SplitSnoc(r: seq<nat>, w: seq<nat>, all: seq<nat>, t: nat)
    requires multiset(r) + multiset(w) == multiset(all)
    ensures multiset(r + [t]) + multiset(w) == multiset(all + [t]) == multiset(r) + multiset(w + [t])
  {}

  lemma TicketsSnoc<T>(fns: seq<Gated<T>>, g: Gated<T>)
    ensures Tickets(fns + [g]) == Tickets(fns) + [g.ticket]
  {}

  /** What the last callback adds, to what may run or to what must wait. */
  lemma LastOne<T>(satisfied: map<T, bool>, fns: seq<Gated<T>>)
    requires fns != []
    ensures var last := |fns| - 1;
            var r, w := Ready(satisfied, fns[..last]), Waiting(satisfied, fns[..last]);
            && Ready(satisfied, fns) == (if Open(satisfied, fns[last]) then r + [fns[last].ticket] else r)
            && Waiting(satisfied, fns) == (if Open(satisfied, fns[last]) then w else w + [fns[last]])
  {
    hide Open;
    assert Ready(satisfied, fns[..|fns| - 1]) + [] == Ready(satisfied, fns[..|fns| - 1]);
    assert Waiting(satisfied, fns[..|fns| - 1]) + [] == Waiting(satisfied, fns[..|fns| - 1]);
  }

  lemma {:induction false} Splits<T>(satisfied: map<T, bool>, fns: seq<Gated<T>>)
    ensures multiset(Ready(satisfied, fns)) + multiset(Tickets(Waiting(satisfied, fns))) == multiset(Tickets(fns))
  {
    if fns == [] {
      assert Tickets(fns) == [];
    } else {
      hide Ready, Waiting, Tickets, Open;
      var last := |fns| - 1;
      var w := Waiting(satisfied, fns[..last]);
      assert fns == fns[..last] + [fns[last]];
      Splits(satisfied, fns[..last]);
      LastOne(satisfied, fns);
      TicketsSnoc(fns[..last], fns[last]);
      TicketsSnoc(w, fns[last]);
      SplitSnoc(Ready(satisfied, fns[..last]), Tickets(w), Tickets(fns[..last]), fns[last].ticket);
    }
  }

  lemma {:induction false} WaitingFacts<T>(satisfied: map<T, bool>, fns: seq<Gated<T>>, g: Gated<T>)
    ensures g in Waiting(satisfied, fns) <==> g in fns && !Open(satisfied, g)
  {
    if fns != [] {
      var last := |fns| - 1;
      WaitingFacts(satisfied, fns[..last], g);
      assert fns == fns[..last] + [fns[last]];
    }
  }

  lemma {:induction false} ReadyFacts<T>(satisfied: map<T, bool>, fns: seq<Gated<T>>, t: nat)
    ensures t in Ready(satisfied, fns) <==> exists i :: 0 <= i < |fns| && fns[i].ticket == t && Open(satisfied, fns[i])
  {
    if fns != [] {
      var last := |fns| - 1;
      ReadyFacts(satisfied, fns[..last], t);
      assert fns == fns[..last] + [fns[last]];
      if t in Ready(satisfied, fns) && t in Ready(satisfied, fns[..last]) {
        var i :| 0 <= i < last && fns[..last][i].ticket == t && Open(satisfied, fns[..last][i]);
        assert fns[i].ticket == t && Open(satisfied, fns[i]);
      }
      if i :| 0 <= i < |fns| && fns[i].ticket == t && Open(satisfied, fns[i]) {
        if i < last { assert fns[..last][i] == fns[i]; }
      }
    }
  }

  lemma StepConserves<T>(s: State<T>, e: Event<T>)
    requires Conserved(s)
    ensures Conserved(Step(s, e))
  {
    hide Open, Ready, Waiting;
    match e
    case Adds(depends) => assert Tickets(Step(s, e).fns) == Tickets(s.fns) + [|s.depends|];
    case Marks(c, v) =>
    case Processes => Splits(s.satisfied, s.fns);
  }

  lemma StepDescribes<T>(s: State<T>, e: Event<T>)
    requires Described(s)
    ensures Described(Step(s, e))
  {
    hide Open, Ready, Waiting;
    if e.Processes? && s.pending > 0 {
      var v := Step(s, e);
      forall i | 0 <= i < |v.fns|
        ensures !v.fns[i].released && v.fns[i].ticket < |v.depends| && v.fns[i].depends == v.depends[v.fns[i].ticket]
      {
        WaitingFacts(s.satisfied, s.fns, v.fns[i]);
      }
    }
  }

  lemma StepWakes<T>(s: State<T>, e: Event<T>)
    requires NoLostWakeup(s)
    ensures NoLostWakeup(Step(s, e))
  {
    hide Open, Ready, Waiting;
    var v := Step(s, e);
    if e.Processes? && s.pending > 0 {
      forall i | 0 <= i < |v.fns| ensures !Open(v.satisfied, v.fns[i]) { WaitingFacts(s.satisfied, s.fns, v.fns[i]); }
    }
  }

  lemma StepKeepsGate<T>(s: State<T>, e: Event<T>)
    requires GateOk(s)
    ensures GateOk(Step(s, e))
  {
    hide Conserved, Described, NoLostWakeup, Step;
    StepConserves(s, e);
    StepDescribes(s, e);
    StepWakes(s, e);
  }

  lemma {:induction false} RunKeepsGate<T>(s: State<T>, es: seq<Event<T>>)
    requires GateOk(s)
    ensures GateOk(Run(s, es))
    decreases |es|
  {
    hide GateOk, Step;
    if es != [] {
      StepKeepsGate(s, es[0]);
      RunKeepsGate(Step(s, es[0]), es[1..]);
    }
  }

  lemma {:induction false} NumbersCount(n: nat, t: nat)
    ensures Numbers(n)[t] == if t < n then 1 else 0
  {
    if n > 0 { NumbersCount(n - 1, t); }
  }

  // ---- the gate, told by what happened ----

  /** The conditions of each registration so far, in order. */
  function Registered<T>(es: seq<Event<T>>): seq<seq<T>> {
    if es == [] then []
    else
      var before, e := es[..|es| - 1], es[|es| - 1];
      if e.Adds? then Registered(before) + [e.depends] else Registered(before)
  }

  /** The condition was marked, and the last time with this value. */
  predicate LastMarked<T(==)>(es: seq<Event<T>>, c: T, value: bool) {
    exists i :: 0 <= i < |es| && es[i] == Marks(c, value) && NotMarkedAfter(es, c, i)
  }

  predicate NotMarkedAfter<T(==)>(es: seq<Event<T>>, c: T, i: nat) {
    forall j :: i < j < |es| ==> !(es[j].Marks? && es[j].condition == c)
  }

  lemma {:induction false} RunSnoc<T>(s: State<T>, es: seq<Event<T>>, e: Event<T>)
    ensures Run(s, es + [e]) == Step(Run(s, es), e)
    decreases |es|
  {
    hide Step;
    if es == [] {
      assert Run(s, [e]) == Run(Step(s, e), []);
    } else {
      assert (es + [e])[1..] == es[1..] + [e];
      RunSnoc(Step(s, es[0]), es[1..], e);
    }
  }

  lemma LastMarkedSnoc<T>(es: seq<Event<T>>, e: Event<T>, c: T, value: bool)
    ensures LastMarked(es + [e], c, value) <==>
              if e.Marks? && e.condition == c then e.value == value else LastMarked(es, c, value)
  {
    var all := es + [e];
    if e.Marks? && e.condition == c {
      if e.value == value {
        assert all[|es|] == Marks(c, value) && NotMarkedAfter(all, c, |es|);
      } else {
        assert all[|es|] == e;
      }
    } else {
      if i :| 0 <= i < |es| && es[i] == Marks(c, value) && NotMarkedAfter(es, c, i) {
        assert all[i] == es[i] && NotMarkedAfter(all, c, i);
      }
      if i :| 0 <= i < |all| && all[i] == Marks(c, value) && NotMarkedAfter(all, c, i) {
        assert es[i] == all[i];
        assert forall j :: i < j < |es| ==> es[j] == all[j];
        assert NotMarkedAfter(es, c, i);
      }
    }
  }

  /** What the gate holds is what was registered and how conditions were last
      marked. */
  lemma {:induction false} GateHoldsHistory<T>(es: seq<Event<T>>)
    ensures Run(Empty<T>(), es).depends == Registered(es)
    ensures var satisfied := Run(Empty<T>(), es).satisfied;
            forall c, v :: (c in satisfied && satisfied[c] == v) <==> LastMarked(es, c, v)
    decreases |es|
  {
    hide LastMarked;
    if es == [] {
      forall c, v ensures !LastMarked(es, c, v) { NeverMarked(es, c, v); }
    } else {
      var before, e := es[..|es| - 1], es[|es| - 1];
      assert es == before + [e];
      GateHoldsHistory(before);
      RunSnoc(Empty<T>(), before, e);
      forall c, v
        ensures (c in Run(Empty<T>(), es).satisfied && Run(Empty<T>(), es).satisfied[c] == v) <==> LastMarked(es, c, v)
      {
        LastMarkedSnoc(before, e, c, v);
      }
    }
  }

  lemma NeverMarked<T>(es: seq<Event<T>>, c: T, value: bool)
    requires es == []
    ensures !LastMarked(es, c, value)
  {}

  // ---- what follows for every interleaving ----

  /** A ticket is started or waiting, never both, and started at most once. */
  lemma StartedOrWaiting<T>(es: seq<Event<T>>, t: nat)
    ensures var s := Run(Empty<T>(), es);
            multiset(s.started)[t] + multiset(Tickets(s.fns))[t] == if t < |Registered(es)| then 1 else 0
  {
    hide Run, LastMarked;
    RunKeepsGate(Empty<T>(), es);
    NumbersCount(|Run(Empty<T>(), es).depends|, t);
    GateHoldsHistory(es);
  }

  /** The t-th callback registered may run: all its conditions were last marked true. */
  ghost predicate MayRun<T>(es: seq<Event<T>>, t: nat) {
    t < |Registered(es)| && forall d :: d in Registered(es)[t] ==> LastMarked(es, d, true)
  }

  lemma MayRunIsOpen<T>(es: seq<Event<T>>, g: Gated<T>)
    requires g.ticket < |Registered(es)| && g.depends == Registered(es)[g.ticket]
    ensures MayRun(es, g.ticket) <==> Open(Run(Empty<T>(), es).satisfied, g)
  {
    hide LastMarked, Run;
    GateHoldsHistory(es);
  }

  /** A callback is only started by a step at which all its conditions were last
      marked true. */
  lemma StartsOnlyWhenOpen<T>(es: seq<Event<T>>, e: Event<T>, t: nat)
    requires var s := Run(Empty<T>(), es);
             t in Step(s, e).started && t !in s.started
    ensures e == Processes && Run(Empty<T>(), es).pending > 0 && MayRun(es, t)
  {
    hide Run, LastMarked, MayRun, Open;
    var s := Run(Empty<T>(), es);
    RunKeepsGate(Empty<T>(), es);
    ReadyFacts(s.satisfied, s.fns, t);
    GateHoldsHistory(es);
    var i :| 0 <= i < |s.fns| && s.fns[i].ticket == t && Open(s.satisfied, s.fns[i]);
    MayRunIsOpen(es, s.fns[i]);
  }

  /** Whoever processes starts every callback that may run. */
  lemma ProcessStartsAll<T>(es: seq<Event<T>>, t: nat)
    requires Run(Empty<T>(), es).pending > 0 && MayRun(es, t)
    ensures t in Step(Run(Empty<T>(), es), Processes).started
  {
    hide Run, LastMarked, Open, Ready, Waiting;
    var s := Run(Empty<T>(), es);
    StartedOrWaiting(es, t);
    if t !in s.started {
      RunKeepsGate(Empty<T>(), es);
      GateHoldsHistory(es);
      assert t in multiset(Tickets(s.fns));
      var i :| 0 <= i < |Tickets(s.fns)| && Tickets(s.fns)[i] == t;
      MayRunIsOpen(es, s.fns[i]);
      ReadyFacts(s.satisfied, s.fns, t);
    }
  }

  /** When no caller is pending, whatever waits has a condition that was not last
      marked true. */
  lemma WaitingIsBlocked<T>(es: seq<Event<T>>, t: nat)
    requires Run(Empty<T>(), es).pending == 0 && t < |Registered(es)| && t !in Run(Empty<T>(), es).started
    ensures exists d :: d in Registered(es)[t] && !LastMarked(es, d, true)
  {
    hide Run, LastMarked, Open;
    var s := Run(Empty<T>(), es);
    StartedOrWaiting(es, t);
    RunKeepsGate(Empty<T>(), es);
    GateHoldsHistory(es);
    assert t in multiset(Tickets(s.fns));
    var i :| 0 <= i < |Tickets(s.fns)| && Tickets(s.fns)[i] == t;
    MayRunIsOpen(es, s.fns[i]);
  }

  // ---- in the order of registration ----

  predicate Ascending(ts: seq<nat>) {
    forall i, j :: 0 <= i < j < |ts| ==> ts[i] < ts[j]
  }

  predicate Queued<T>(fns: seq<Gated<T>>) {
    forall i, j :: 0 <= i < j < |fns| ==> fns[i].ticket < fns[j].ticket
  }

  /** Those that wait do so in the order in which they came. */
  predicate InOrder<T>(s: State<T>) {
    && Queued(s.fns)
    && (forall i :: 0 <= i < |s.fns| ==> s.fns[i].ticket < |s.depends|)
  }

  lemma {:induction false} SplitInOrder<T>(satisfied: map<T, bool>, fns: seq<Gated<T>>)
    requires Queued(fns)
    ensures Ascending(Ready(satisfied, fns)) && Queued(Waiting(satisfied, fns))
  {
    hide Open;
    if fns != [] {
      var last := |fns| - 1;
      var r, w := Ready(satisfied, fns[..last]), Waiting(satisfied, fns[..last]);
      SplitInOrder(satisfied, fns[..last]);
      forall i | 0 <= i < |r| ensures r[i] < fns[last].ticket { ReadyFacts(satisfied, fns[..last], r[i]); }
      forall i | 0 <= i < |w| ensures w[i].ticket < fns[last].ticket { WaitingFacts(satisfied, fns[..last], w[i]); }
    }
  }

  lemma StepInOrder<T>(s: State<T>, e: Event<T>)
    requires InOrder(s)
    ensures InOrder(Step(s, e))
  {
    hide Open, Ready, Waiting;
    if e.Processes? && s.pending > 0 {
      var w := Waiting(s.satisfied, s.fns);
      SplitInOrder(s.satisfied, s.fns);
      forall i | 0 <= i < |w| ensures w[i].ticket < |s.depends| { WaitingFacts(s.satisfied, s.fns, w[i]); }
    }
  }

  lemma {:induction false} RunInOrder<T>(s: State<T>, es: seq<Event<T>>)
    requires InOrder(s)
    ensures InOrder(Run(s, es))
    decreases |es|
  {
    hide InOrder, Step;
    if es != [] {
      StepInOrder(s, es[0]);
      RunInOrder(Step(s, es[0]), es[1..]);
    }
  }

  /** The callbacks one step starts are started in the order of registration. */
  lemma StartsInOrder<T>(es: seq<Event<T>>, e: Event<T>)
    ensures var s := Run(Empty<T>(), es);
            var all := Step(s, e).started;
            |s.started| <= |all| && all[..|s.started|] == s.started && Ascending(all[|s.started|..])
  {
    hide Run, Open, Ready, Waiting;
    var s := Run(Empty<T>(), es);
    RunInOrder(Empty<T>(), es);
    SplitInOrder(s.satisfied, s.fns);
    var more := Ready(s.satisfied, s.fns);
    assert (s.started + more)[|s.started|..] == more;
  }
}
