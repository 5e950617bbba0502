/** The conditions of a resource: a list that is used as a map from condition types
(`apis/common/condition.go`). */
module Conditions {
  import opened Text
  import opened Ordering

  const UNKNOWN := "Unknown"

  /** A transition time counts from the zero time. */
  datatype Condition = Condition(kind: string, status: string, time: nat, reason: string, message: string, generation: int)
  {
    /** `Equal`, which ignores the transition time. */
    predicate Same(o: Condition) {
      kind == o.kind && status == o.status && reason == o.reason && message == o.message && generation == o.generation
    }
  }

  function Kinds(cs: seq<Condition>): seq<string> {
    seq(|cs|, i requires 0 <= i < |cs| => cs[i].kind)
  }

  /** At most one condition of each type. */
  predicate Unique(cs: seq<Condition>) {
    forall i, j :: 0 <= i < j < |cs| ==> cs[i].kind != cs[j].kind
  }

  // ---- setting conditions ----

  /** What setting `c` makes of an existing condition. */
  function Put(had: Condition, c: Condition): Condition {
    if had.kind == c.kind && !had.Same(c) then c else had
  }

  function SetOne(cs: seq<Condition>, c: Condition): seq<Condition> {
    var put := seq(|cs|, i requires 0 <= i < |cs| => Put(cs[i], c));
    if c.kind in Kinds(cs) then put else cs + [c]
  }

  function SetAll(cs: seq<Condition>, supplied: seq<Condition>): seq<Condition> {
    if supplied == [] then cs
    else
      var last := |supplied| - 1;
      SetOne(SetAll(cs, supplied[..last]), supplied[last])
  }

  /** The first condition of a type, or one of unknown status. */
  function Get(cs: seq<Condition>, kind: string): (c: Condition)
    ensures c.kind == kind
  {
    if cs == [] then Condition(kind, UNKNOWN, 0, "", "", 0)
    else if cs[0].kind == kind then cs[0]
    else Get(cs[1..], kind)
  }

  /** Each has what the other has, ignoring times. */
  predicate SameSets(a: seq<Condition>, b: seq<Condition>) {
    Within(a, b) && Within(b, a)
  }

  predicate Within(a: seq<Condition>, b: seq<Condition>) {
    forall i :: 0 <= i < |a| ==> Among(a[i], b)
  }

  predicate Among(c: Condition, cs: seq<Condition>) {
    exists j :: 0 <= j < |cs| && c.Same(cs[j])
  }

  class ConditionedStatus {
    var conditions: seq<Condition>

    constructor (c: seq<Condition>)
      ensures conditions == SetAll([], c)
    {
      conditions := [];
      new;
      SetConditions(c);
    }

    method GetCondition(kind: string) returns (c: Condition)
      ensures c == Get(conditions, kind)
    {
      for i := 0 to |conditions|
        invariant Get(conditions, kind) == Get(conditions[i..], kind)
      {
        if conditions[i].kind == kind { return conditions[i]; }
        assert conditions[i..][1..] == conditions[i + 1..];
      }
      return Condition(kind, UNKNOWN, 0, "", "", 0);
    }

    method SetConditions(c: seq<Condition>)
      modifies this
      ensures conditions == SetAll(old(conditions), c)
    {
      for k := 0 to |c|
        invariant conditions == SetAll(old(conditions), c[..k])
      {
        ghost var was := conditions;
        var found := false;
        for i := 0 to |conditions|
          invariant |conditions| == |was|
          invariant forall j :: 0 <= j < |was| ==> conditions[j] == if j < i then Put(was[j], c[k]) else was[j]
          invariant found <==> exists j :: 0 <= j < i && was[j].kind == c[k].kind
        {
          var existing := conditions[i];
          if existing.kind == c[k].kind {
            if !existing.Same(c[k]) { conditions := conditions[i := c[k]]; }
            found := true;
          }
        }
        SetOneIs(was, c[k], conditions, found);
        if !found { conditions := conditions + [c[k]]; }
        assert c[..k + 1][..k] == c[..k];
      }
      assert c[..|c|] == c;
    }

    /** Equality as sets, ignoring times, where each side has its types once. */
    static method Equal(s: ConditionedStatus?, other: ConditionedStatus?) returns (r: bool)
      ensures s == null || other == null ==> (r <==> s == null && other == null)
      ensures s != null && other != null && Unique(s.conditions) && Unique(other.conditions) ==>
                (r <==> SameSets(s.conditions, other.conditions))
    {
      if s == null || other == null { return s == null && other == null; }
      ghost var a, b := s.conditions, other.conditions;
      assert Unique(a) && Unique(b) && SameSets(a, b) ==> |a| == |b| by {
        if Unique(a) && Unique(b) && SameSets(a, b) { SameSetsSameLength(a, b); }
      }
      if |other.conditions| != |s.conditions| { return false; }
      var sc := SortByKind(s.conditions);
      var oc := SortByKind(other.conditions);
      SortedSame(a, b, sc, oc);
      assert |sc| == |multiset(sc)| && |oc| == |multiset(oc)|;
      for i := 0 to |sc|
        invariant forall j :: 0 <= j < i ==> sc[j].Same(oc[j])
      {
        if !sc[i].Same(oc[i]) { return false; }
      }
      return true;
    }
  }

  lemma SetOneIs(was: seq<Condition>, c: Condition, now: seq<Condition>, found: bool)
    requires |now| == |was| && forall j :: 0 <= j < |was| ==> now[j] == Put(was[j], c)
    requires found <==> exists j :: 0 <= j < |was| && was[j].kind == c.kind
    ensures SetOne(was, c) == if found then now else now + [c]
  {
    if found {
      var j :| 0 <= j < |was| && was[j].kind == c.kind;
      assert Kinds(was)[j] == c.kind;
    } else {
      assert forall j :: 0 <= j < |was| ==> Kinds(was)[j] != c.kind;
      assert now == was;
    }
  }

  // ---- sorting ----

  predicate Ordered(cs: seq<Condition>) {
    forall i, j :: 0 <= i < j < |cs| ==> !Less(cs[j].kind, cs[i].kind)
  }

  /** `sort.Slice` by type. */
  method SortByKind(cs: seq<Condition>) returns (r: seq<Condition>)
    ensures multiset(r) == multiset(cs) && Ordered(r)
  {
    hide Less, Ordered;
    r := [];
    OneIsOrdered(r);
    for k := 0 to |cs|
      invariant |r| == k && multiset(r) == multiset(cs[..k]) && Ordered(r)
    {
      var p := k;
      while p > 0 && Less(cs[k].kind, r[p - 1].kind)
        invariant 0 <= p <= k
        invariant forall j :: p <= j < k ==> Less(cs[k].kind, r[j].kind)
      {
        p := p - 1;
      }
      InsertOrdered(r, p, cs[k]);
      InsertPermutes(r, p, cs[k]);
      r := r[..p] + [cs[k]] + r[p..];
      assert cs[..k + 1] == cs[..k] + [cs[k]];
    }
    assert cs[..|cs|] == cs;
  }

  lemma OneIsOrdered(r: seq<Condition>)
    requires |r| <= 1
    ensures Ordered(r)
  {}

  lemma InsertPermutes(r: seq<Condition>, p: nat, c: Condition)
    requires p <= |r|
    ensures multiset(r[..p] + [c] + r[p..]) == multiset(r) + multiset{c}
  {
    assert r == r[..p] + r[p..];
  }

  lemma InsertOrdered(r: seq<Condition>, p: nat, c: Condition)
    requires Ordered(r) && p <= |r|
    requires forall j :: p <= j < |r| ==> Less(c.kind, r[j].kind)
    requires p > 0 ==> !Less(c.kind, r[p - 1].kind)
    ensures Ordered(r[..p] + [c] + r[p..])
  {
    forall i | 0 <= i < p ensures !Less(c.kind, r[i].kind) {
      if i < p - 1 { NotLessTransitive(r[i].kind, r[p - 1].kind, c.kind); }
    }
    forall j | p <= j < |r| ensures !Less(r[j].kind, c.kind) {
      if Less(r[j].kind, c.kind) {
        LessTransitive(c.kind, r[j].kind, c.kind);
        LessIrreflexive(c.kind);
      }
    }
  }

  lemma CountTwice(s: seq<Condition>, i: nat, j: nat)
    requires i < j < |s| && s[i] == s[j]
    ensures multiset(s)[s[i]] >= 2
  {
    assert s == s[..j] + s[j..];
    assert s[i] in s[..j] && s[i] in s[j..];
  }

  lemma {:induction false} CountOnce(s: seq<Condition>, x: Condition)
    requires Unique(s)
    ensures multiset(s)[x] <= 1
  {
    if s != [] {
      var last := |s| - 1;
      CountOnce(s[..last], x);
      assert s == s[..last] + [s[last]];
      if x == s[last] { assert x !in s[..last]; }
    }
  }

  /** Sorting a list that has each type once leaves its types in strict order. */
  lemma SortedIncreasing(cs: seq<Condition>, r: seq<Condition>)
    requires Unique(cs) && multiset(r) == multiset(cs) && Ordered(r)
    ensures Increasing(Kinds(r)) && forall x :: x in r <==> x in cs
  {
    forall x ensures x in r <==> x in cs {
      assert x in multiset(r) <==> x in multiset(cs);
    }
    forall i, j | 0 <= i < j < |r| ensures Less(r[i].kind, r[j].kind) {
      if r[i].kind == r[j].kind {
        SameKindSame(cs, r[i], r[j]);
        CountTwice(r, i, j);
        CountOnce(cs, r[i]);
      }
      NotLessThenLess(r[i].kind, r[j].kind);
    }
  }

  lemma SameKindSame(cs: seq<Condition>, x: Condition, y: Condition)
    requires Unique(cs) && x in cs && y in cs && x.kind == y.kind
    ensures x == y
  {
    var i :| 0 <= i < |cs| && cs[i] == x;
    var j :| 0 <= j < |cs| && cs[j] == y;
  }

  lemma SameSetsSameKinds(a: seq<Condition>, b: seq<Condition>, k: string)
    requires Within(a, b) && k in Kinds(a)
    ensures k in Kinds(b)
  {
    var i :| 0 <= i < |a| && Kinds(a)[i] == k;
    assert Among(a[i], b);
    var j :| 0 <= j < |b| && a[i].Same(b[j]);
    assert Kinds(b)[j] == k;
  }

  lemma {:induction false} UniqueCard(cs: seq<Condition>)
    requires Unique(cs)
    ensures |set k | k in Kinds(cs)| == |cs|
  {
    if cs != [] {
      var last := |cs| - 1;
      UniqueCard(cs[..last]);
      assert Kinds(cs) == Kinds(cs[..last]) + [cs[last].kind];
      assert cs[last].kind !in Kinds(cs[..last]);
      assert (set k | k in Kinds(cs)) == (set k | k in Kinds(cs[..last])) + {cs[last].kind};
    }
  }

  lemma SameSetsSameLength(a: seq<Condition>, b: seq<Condition>)
    requires Unique(a) && Unique(b) && SameSets(a, b)
    ensures |a| == |b|
  {
    UniqueCard(a);
    UniqueCard(b);
    forall k ensures k in Kinds(a) <==> k in Kinds(b) {
      if k in Kinds(a) { SameSetsSameKinds(a, b, k); }
      if k in Kinds(b) { SameSetsSameKinds(b, a, k); }
    }
    assert (set k | k in Kinds(a)) == (set k | k in Kinds(b));
  }

  predicate Pairwise(a: seq<Condition>, b: seq<Condition>) {
    |a| == |b| && forall j :: 0 <= j < |a| ==> a[j].Same(b[j])
  }

  lemma PairwiseWithin(a: seq<Condition>, b: seq<Condition>, sa: seq<Condition>, sb: seq<Condition>)
    requires forall x :: x in sa <==> x in a
    requires forall x :: x in sb <==> x in b
    requires |sa| == |sb| && forall j :: 0 <= j < |sa| ==> sa[j].Same(sb[j])
    ensures Within(a, b)
  {
    forall i | 0 <= i < |a| ensures Among(a[i], b) {
      assert a[i] in sa;
      var m :| 0 <= m < |sa| && sa[m] == a[i];
      assert sb[m] in b;
      var j :| 0 <= j < |b| && b[j] == sb[m];
      assert a[i].Same(b[j]);
    }
  }

  lemma SameSetsPairwise(a: seq<Condition>, b: seq<Condition>, sa: seq<Condition>, sb: seq<Condition>)
    requires Unique(a) && Unique(b) && SameSets(a, b)
    requires Increasing(Kinds(sa)) && (forall x :: x in sa <==> x in a)
    requires Increasing(Kinds(sb)) && (forall x :: x in sb <==> x in b)
    ensures Pairwise(sa, sb)
  {
    forall k ensures k in Kinds(sa) <==> k in Kinds(sb) {
      KindsOfSame(sa, a, k);
      KindsOfSame(sb, b, k);
      if k in Kinds(a) { SameSetsSameKinds(a, b, k); }
      if k in Kinds(b) { SameSetsSameKinds(b, a, k); }
    }
    IncreasingUnique(Kinds(sa), Kinds(sb));
    forall m | 0 <= m < |sa| ensures sa[m].Same(sb[m]) {
      assert sa[m] in a;
      var i :| 0 <= i < |a| && a[i] == sa[m];
      assert Among(a[i], b);
      var j :| 0 <= j < |b| && a[i].Same(b[j]);
      assert Kinds(sa)[m] == Kinds(sb)[m];
      assert sb[m] in sb;
      SameKindSame(b, b[j], sb[m]);
    }
  }

  lemma KindsOfSame(s: seq<Condition>, t: seq<Condition>, k: string)
    requires forall x :: x in s <==> x in t
    ensures k in Kinds(s) <==> k in Kinds(t)
  {
    if k in Kinds(s) {
      var i :| 0 <= i < |s| && Kinds(s)[i] == k;
      assert s[i] in t;
      var j :| 0 <= j < |t| && t[j] == s[i];
      assert Kinds(t)[j] == k;
    }
    if k in Kinds(t) {
      var i :| 0 <= i < |t| && Kinds(t)[i] == k;
      assert t[i] in s;
      var j :| 0 <= j < |s| && s[j] == t[i];
      assert Kinds(s)[j] == k;
    }
  }

  /** However the sort arranges conditions of one type, comparing the sorted lists
      decides equality where there is one of each. */
  lemma SortedSame(a: seq<Condition>, b: seq<Condition>, sa: seq<Condition>, sb: seq<Condition>)
    requires multiset(sa) == multiset(a) && Ordered(sa) && multiset(sb) == multiset(b) && Ordered(sb)
    ensures Unique(a) && Unique(b) ==> (Pairwise(sa, sb) <==> SameSets(a, b))
  {
    if Unique(a) && Unique(b) {
      SortedIncreasing(a, sa);
      SortedIncreasing(b, sb);
      if Pairwise(sa, sb) {
        PairwiseWithin(a, b, sa, sb);
        PairwiseWithin(b, a, sb, sa);
      }
      if SameSets(a, b) { SameSetsPairwise(a, b, sa, sb); }
    }
  }

  // ---- what setting conditions keeps ----

  lemma KindsAfterSetOne(cs: seq<Condition>, c: Condition)
    ensures Kinds(SetOne(cs, c)) == if c.kind in Kinds(cs) then Kinds(cs) else Kinds(cs) + [c.kind]
  {}

  /** Each string where it appears first. */
  function FirstAppearances(ks: seq<string>): seq<string> {
    if ks == [] then []
    else
      var last := |ks| - 1;
      var f := FirstAppearances(ks[..last]);
      if ks[last] in f then f else f + [ks[last]]
  }

  lemma {:induction false} UniqueFirst(cs: seq<Condition>)
    requires Unique(cs)
    ensures FirstAppearances(Kinds(cs)) == Kinds(cs)
  {
    if cs != [] {
      var last := |cs| - 1;
      UniqueFirst(cs[..last]);
      assert Kinds(cs)[..last] == Kinds(cs[..last]);
      assert cs[last].kind !in Kinds(cs[..last]);
      assert Kinds(cs) == Kinds(cs[..last]) + [cs[last].kind];
    }
  }

  lemma KindsSnoc(cs: seq<Condition>, c: Condition)
    ensures Kinds(cs + [c]) == Kinds(cs) + [c.kind]
  {}

  lemma FirstSnoc(ks: seq<string>, k: string)
    ensures FirstAppearances(ks + [k]) == if k in FirstAppearances(ks) then FirstAppearances(ks) else FirstAppearances(ks) + [k]
  {
    assert (ks + [k])[..|ks|] == ks;
  }

  /** The types are those there were and those supplied, each where it first
      appeared; nothing is dropped, repeated or moved. */
  lemma {:induction false} TypesInFirstOrder(cs: seq<Condition>, supplied: seq<Condition>)
    requires Unique(cs)
    ensures Unique(SetAll(cs, supplied))
    ensures Kinds(SetAll(cs, supplied)) == FirstAppearances(Kinds(cs) + Kinds(supplied))
  {
    hide Unique, Kinds, FirstAppearances, SetOne;
    if supplied == [] {
      UniqueFirst(cs);
      NoKinds();
      assert Kinds(cs) + [] == Kinds(cs);
    } else {
      var last := |supplied| - 1;
      var rest, c := supplied[..last], supplied[last];
      var before := SetAll(cs, rest);
      TypesInFirstOrder(cs, rest);
      KindsAfterSetOne(before, c);
      assert supplied == rest + [c];
      KindsSnoc(rest, c);
      assert Kinds(cs) + (Kinds(rest) + [c.kind]) == (Kinds(cs) + Kinds(rest)) + [c.kind];
      FirstSnoc(Kinds(cs) + Kinds(rest), c.kind);
      SetOneUnique(before, c);
    }
  }

  lemma NoKinds()
    ensures Kinds([]) == []
  {}

  lemma SetOneUnique(cs: seq<Condition>, c: Condition)
    requires Unique(cs)
    ensures Unique(SetOne(cs, c))
  {
    KindsAfterSetOne(cs, c);
    UniqueByKinds(cs, SetOne(cs, c));
  }

  lemma UniqueByKinds(before: seq<Condition>, after: seq<Condition>)
    requires Unique(before)
    requires Kinds(after) == Kinds(before) || (after != [] && Kinds(after) == Kinds(before) + [after[|after| - 1].kind]
                                               && after[|after| - 1].kind !in Kinds(before))
    ensures Unique(after)
  {
    assert |Kinds(after)| == |after|;
    forall i, j | 0 <= i < j < |after| ensures after[i].kind != after[j].kind {
      assert after[i].kind == Kinds(after)[i] && after[j].kind == Kinds(after)[j];
      assert i < |before| && Kinds(before)[i] == before[i].kind;
      if j < |before| { assert Kinds(before)[j] == before[j].kind; }
    }
  }

  lemma {:induction false} GetAfterPut(cs: seq<Condition>, c: Condition, kind: string)
    requires c.kind in Kinds(cs)
    ensures var put := seq(|cs|, i requires 0 <= i < |cs| => Put(cs[i], c));
            Get(put, kind) == if kind == c.kind then Put(Get(cs, kind), c) else Get(cs, kind)
  {
    var put := seq(|cs|, i requires 0 <= i < |cs| => Put(cs[i], c));
    if cs[0].kind == kind {
    } else if c.kind in Kinds(cs[1..]) {
      GetAfterPut(cs[1..], c, kind);
      assert put[1..] == seq(|cs[1..]|, i requires 0 <= i < |cs[1..]| => Put(cs[1..][i], c));
    } else {
      assert Kinds(cs) == [cs[0].kind] + Kinds(cs[1..]);
      assert forall i :: 1 <= i < |cs| ==> cs[i].kind == Kinds(cs[1..])[i - 1];
      assert put[1..] == cs[1..];
    }
  }

  lemma {:induction false} GetAfterAppend(cs: seq<Condition>, c: Condition, kind: string)
    requires c.kind !in Kinds(cs)
    ensures Get(cs + [c], kind) == if kind == c.kind then c else Get(cs, kind)
  {
    if cs != [] {
      assert Kinds(cs) == [cs[0].kind] + Kinds(cs[1..]);
      assert (cs + [c])[1..] == cs[1..] + [c];
      GetAfterAppend(cs[1..], c, kind);
    }
  }

  /** Setting one condition: what is read back for its type and for any other. */
  lemma GetAfterSetOne(cs: seq<Condition>, c: Condition, kind: string)
    ensures Get(SetOne(cs, c), kind)
            == if kind != c.kind then Get(cs, kind) else if c.kind in Kinds(cs) then Put(Get(cs, kind), c) else c
  {
    if c.kind in Kinds(cs) { GetAfterPut(cs, c, kind); } else { GetAfterAppend(cs, c, kind); }
  }

  /** The last supplied condition of a type. */
  function LastSupplied(supplied: seq<Condition>, kind: string): Option<Condition> {
    if supplied == [] then None
    else if supplied[|supplied| - 1].kind == kind then Some(supplied[|supplied| - 1])
    else LastSupplied(supplied[..|supplied| - 1], kind)
  }

  /** For each type the last supplied condition is read back, ignoring its time;
      a type that was not supplied reads as before. */
  lemma {:induction false} LastSuppliedIsRead(cs: seq<Condition>, supplied: seq<Condition>, kind: string)
    ensures match LastSupplied(supplied, kind)
            case Some(c) => Get(SetAll(cs, supplied), kind).Same(c)
            case None => Get(SetAll(cs, supplied), kind) == Get(cs, kind)
  {
    if supplied != [] {
      var last := |supplied| - 1;
      LastSuppliedIsRead(cs, supplied[..last], kind);
      GetAfterSetOne(SetAll(cs, supplied[..last]), supplied[last], kind);
    }
  }

  /** No step of a run of sets moves the time of a condition that is there
      without changing something else in it. */
  lemma TimeMovesWithContent(cs: seq<Condition>, supplied: seq<Condition>, n: nat, kind: string)
    requires n < |supplied| && kind in Kinds(SetAll(cs, supplied[..n]))
    ensures var before, after := Get(SetAll(cs, supplied[..n]), kind), Get(SetAll(cs, supplied[..n + 1]), kind);
            after == before || !after.Same(before)
  {
    assert supplied[..n + 1][..n] == supplied[..n];
    GetAfterSetOne(SetAll(cs, supplied[..n]), supplied[n], kind);
  }

  lemma {:induction false} GetIsThere(cs: seq<Condition>, i: nat)
    requires Unique(cs) && i < |cs|
    ensures Get(cs, cs[i].kind) == cs[i]
  {
    if i > 0 {
      assert cs[0].kind != cs[i].kind;
      GetIsThere(cs[1..], i - 1);
    }
  }

  /** Setting a condition is a no-op exactly if the same one is there. */
  lemma NoOpExactly(cs: seq<Condition>, c: Condition)
    requires Unique(cs)
    ensures SetOne(cs, c) == cs <==> c.kind in Kinds(cs) && Get(cs, c.kind).Same(c)
  {
    if c.kind in Kinds(cs) {
      var i :| 0 <= i < |cs| && Kinds(cs)[i] == c.kind;
      GetIsThere(cs, i);
      assert SetOne(cs, c)[i] == Put(cs[i], c);
      if Get(cs, c.kind).Same(c) {
        forall j | 0 <= j < |cs| ensures Put(cs[j], c) == cs[j] {
          if cs[j].kind == c.kind { GetIsThere(cs, j); }
        }
      }
    }
  }
}
