/** Object metadata: annotations, creation stamps and finalizers
(`pkg/meta/meta.go`).

The reconciler owns four annotations; they are fields of `Notes`, and all other
annotations are in `others`. A creation stamp is the second an RFC 3339 text
without a fraction names; an absent or malformed stamp reads as the zero time,
which is second 0 here.
 */
module Meta {
  import opened Text

  /** Clock ticks in a second. */
  const SECOND: nat := 1_000_000_000

  const PAUSED_KEY := "crossplane.io/paused"

  datatype Notes = Notes(
    name: Option<string>,
    pending: Option<nat>,
    succeeded: Option<nat>,
    failed: Option<nat>,
    others: map<string, string>)

  /** The time `t.Format(time.RFC3339)` keeps of a clock reading. */
  function Stamp(now: nat): nat {
    now / SECOND
  }

  function Seconds(stamp: Option<nat>): nat {
    if stamp.Some? then stamp.value else 0
  }

  function ExternalName(n: Notes): string {
    if n.name.Some? then n.name.value else ""
  }

  function Over<T>(had: Option<T>, added: Option<T>): Option<T> {
    if added.Some? then added else had
  }

  /** `AddAnnotations`: every added annotation replaces the one with its key. */
  function AddAnnotations(o: Notes, a: Notes): Notes {
    Notes(Over(o.name, a.name), Over(o.pending, a.pending), Over(o.succeeded, a.succeeded),
          Over(o.failed, a.failed), o.others + a.others)
  }

  /** The later of the two outcome stamps. */
  function Latest(n: Notes): nat {
    if Seconds(n.failed) > Seconds(n.succeeded) then Seconds(n.failed) else Seconds(n.succeeded)
  }

  /** `ExternalCreateIncomplete`. */
  predicate CreateIncomplete(n: Notes) {
    Seconds(n.pending) != 0 && Seconds(n.pending) > Latest(n)
  }

  /** `ExternalCreateSucceededDuring`. */
  predicate SucceededDuring(n: Notes, now: nat, d: nat) {
    Seconds(n.succeeded) != 0 && now - Seconds(n.succeeded) * SECOND < d
  }

  predicate IsPaused(n: Notes) {
    PAUSED_KEY in n.others && n.others[PAUSED_KEY] == "true"
  }

  /** The grace check looks at the stamp, not at the time it was taken: the check
      may end up to a second early, never late. */
  lemma GraceEndsEarly(n: Notes, taken: nat, now: nat, d: nat)
    requires n.succeeded == Some(Stamp(taken)) && Stamp(taken) != 0 && taken <= now
    ensures now - taken >= d ==> !SucceededDuring(n, now, d)
    ensures !SucceededDuring(n, now, d) ==> now - taken > d - SECOND
  {}

  // ---- finalizers ----

  predicate NoDuplicates(f: seq<string>) {
    forall i, j :: 0 <= i < j < |f| ==> f[i] != f[j]
  }

  /** `AddFinalizer` on the list. */
  function WithFinalizer(f: seq<string>, x: string): seq<string> {
    if x in f then f else f + [x]
  }

  /** What the loop of `RemoveFinalizer` leaves. It goes on to the next position
      after a removal, so that what moves into the gap is not looked at. */
  function WithoutFinalizer(f: seq<string>, x: string): seq<string> {
    if f == [] then []
    else if f[0] != x then [f[0]] + WithoutFinalizer(f[1..], x)
    else if |f| == 1 then []
    else [f[1]] + WithoutFinalizer(f[2..], x)
  }

  /** The last element is one to be removed and not the only one. The loop then
      meets it again where it was, past the end of the list, and indexes out of
      bounds. */
  predicate Panics(f: seq<string>, x: string) {
    f != [] && f[|f| - 1] == x && x in f[..|f| - 1]
  }

  class Metadata {
    var finalizers: seq<string>

    constructor (f: seq<string>)
      ensures finalizers == f
    {
      finalizers := f;
    }

    method AddFinalizer(x: string)
      modifies this
      ensures finalizers == WithFinalizer(old(finalizers), x)
      ensures NoDuplicates(old(finalizers)) ==> NoDuplicates(finalizers)
      ensures x in finalizers
    {
      for i := 0 to |finalizers|
        invariant x !in finalizers[..i]
        invariant finalizers == old(finalizers)
      {
        if finalizers[i] == x { return; }
      }
      assert finalizers[..|finalizers|] == finalizers;
      finalizers := finalizers + [x];
    }

    /** The loop ranges over the list as it was found, `n` long, while removals
        shift the elements of what is now a list of `m` within it. */
    method RemoveFinalizer(x: string) returns (ok: bool)
      modifies this
      ensures ok <==> !Panics(old(finalizers), x)
      ensures ok ==> finalizers == WithoutFinalizer(old(finalizers), x)
      ensures !ok ==> var kept := WithoutFinalizer(old(finalizers), x);
                      && |kept| < |finalizers| == |old(finalizers)| && finalizers[..|kept|] == kept
                      && forall j :: |kept| <= j < |finalizers| ==> finalizers[j] == x
      ensures ok && x !in finalizers <==> !Panics(old(finalizers), x) && !Adjacent(old(finalizers), x)
      ensures ok && x !in finalizers ==> finalizers == Others(old(finalizers), x)
      ensures NoDuplicates(old(finalizers)) ==> ok && NoDuplicates(finalizers) && x !in finalizers
    {
      hide Swept, WithoutFinalizer, Panics, Adjacent, Others, NoDuplicates;
      ghost var f := finalizers;
      var n: nat, m: nat := |finalizers|, |finalizers|;
      RemovedExactly(f, x);
      if NoDuplicates(f) { DistinctIsRemoved(f, x); }
      SweepStarts(f, x);
      for i := 0 to n
        invariant |finalizers| == n && m <= n
        invariant Swept(f, x, finalizers, i, m)
      {
        if finalizers[i] == x {
          if i + 1 > m {
            SweepPanics(f, x, finalizers, i, m);
            return false;
          }
          SweepRemoves(f, x, finalizers, i, m);
          finalizers := Shifted(finalizers, i, m);
          m := m - 1;
        } else {
          SweepPasses(f, x, finalizers, i, m);
        }
      }
      SweepEnds(f, x, finalizers, m);
      finalizers := finalizers[..m];
      ok := true;
    }
  }

  /** Half-way through the loop: `a` is the list as it was found with the removals
      so far, of which `m` elements are left and `i` were looked at. */
  ghost predicate Swept(f: seq<string>, x: string, a: seq<string>, i: nat, m: nat) {
    && |a| == |f| && i <= |f| && m <= |f|
    && WithoutFinalizer(f, x) == (if i <= m then a[..i] + WithoutFinalizer(a[i..m], x) else a[..m])
    // the places left over hold the last element, and so does the last one left
    && (forall j :: m <= j < |f| ==> a[j] == f[|f| - 1])
    && (i < m ==> a[m - 1] == f[|f| - 1])
    && (m == |f| ==> a == f && x !in f[..i])
    && (m < |f| && i < |f| ==> x in f[..|f| - 1])
    && (m < |f| && i == |f| ==> !Panics(f, x))
  }

  lemma SweepStarts(f: seq<string>, x: string)
    ensures Swept(f, x, f, 0, |f|)
  {
    assert f[0..|f|] == f;
  }

  lemma SweepPasses(f: seq<string>, x: string, a: seq<string>, i: nat, m: nat)
    requires i < |f| && Swept(f, x, a, i, m) && a[i] != x
    ensures Swept(f, x, a, i + 1, m)
  {
    hide WithoutFinalizer;
    if i <= m { LeftPast(a, x, i, m); }
    if m == |f| { assert f[..i + 1] == f[..i] + [f[i]]; }
  }

  lemma LeftPast(a: seq<string>, x: string, i: nat, m: nat)
    requires i <= m <= |a| && (i < |a| ==> a[i] != x)
    ensures a[..i] + WithoutFinalizer(a[i..m], x)
            == if i < m then a[..i + 1] + WithoutFinalizer(a[i + 1..m], x) else a[..m]
  {
    if i < m {
      assert a[i..m][1..] == a[i + 1..m] && a[..i + 1] == a[..i] + [a[i]];
    }
  }

  /** The first `m` elements without the one at `i`, shifted in place. */
  function Shifted(a: seq<string>, i: nat, m: nat): (b: seq<string>)
    requires i < m <= |a|
    ensures |b| == |a| && (forall j :: 0 <= j < i ==> b[j] == a[j])
    ensures forall j :: i <= j < m - 1 ==> b[j] == a[j + 1]
    ensures forall j :: m - 1 <= j < |a| ==> b[j] == a[j]
  {
    a[..i] + a[i + 1..m] + a[m - 1..]
  }

  lemma SweepRemoves(f: seq<string>, x: string, a: seq<string>, i: nat, m: nat)
    requires Swept(f, x, a, i, m) && i < m && a[i] == x
    ensures Swept(f, x, Shifted(a, i, m), i + 1, m - 1)
  {
    hide Shifted, WithoutFinalizer;
    var b := Shifted(a, i, m);
    LeftAfter(a, x, i, m);
    if m == |f| && i < |f| - 1 { assert f[..|f| - 1][i] == x; }
  }

  lemma LeftAfter(a: seq<string>, x: string, i: nat, m: nat)
    requires i < m <= |a| && a[i] == x
    ensures var b := Shifted(a, i, m);
            a[..i] + WithoutFinalizer(a[i..m], x)
            == if i + 1 < m then b[..i + 1] + WithoutFinalizer(b[i + 1..m - 1], x) else b[..m - 1]
  {
    hide Shifted;
    var b, rest := Shifted(a, i, m), a[i..m];
    if i + 1 < m {
      assert rest[1] == a[i + 1] && rest[2..] == b[i + 1..m - 1];
      assert b[..i + 1] == a[..i] + [a[i + 1]];
    } else {
      assert b[..m - 1] == a[..i];
    }
  }

  lemma SweepPanics(f: seq<string>, x: string, a: seq<string>, i: nat, m: nat)
    requires i < |f| && Swept(f, x, a, i, m) && a[i] == x && i >= m
    ensures Panics(f, x) && |a| == |f| && m < |f| && WithoutFinalizer(f, x) == a[..m]
    ensures forall j :: m <= j < |a| ==> a[j] == x
  {
    assert i == m ==> a[i..m] == [];
  }

  lemma SweepEnds(f: seq<string>, x: string, a: seq<string>, m: nat)
    requires Swept(f, x, a, |f|, m)
    ensures !Panics(f, x) && WithoutFinalizer(f, x) == a[..m]
  {
    if m == |f| {
      assert f[..|f|] == f && a[m..m] == [];
    }
  }

  /** The list without any `x`. */
  function Others(f: seq<string>, x: string): (r: seq<string>)
    ensures x !in r
  {
    if f == [] then [] else if f[0] == x then Others(f[1..], x) else [f[0]] + Others(f[1..], x)
  }

  predicate Adjacent(f: seq<string>, x: string) {
    exists i :: 0 < i < |f| && f[i - 1] == x && f[i] == x
  }

  /** The finalizer is gone, and the others keep their order, exactly if it is not
      there twice in a row. */
  lemma {:induction false} RemovedExactly(f: seq<string>, x: string)
    ensures WithoutFinalizer(f, x) == Others(f, x) <==> !Adjacent(f, x)
    ensures x !in WithoutFinalizer(f, x) <==> !Adjacent(f, x)
    decreases |f|
  {
    if |f| <= 1 {
    } else if f[0] != x {
      RemovedExactly(f[1..], x);
      AdjacentLater(f, x, 1);
    } else if f[1] == x {
      assert f[1 - 1] == x;
      assert WithoutFinalizer(f, x)[0] == x;
    } else {
      RemovedExactly(f[2..], x);
      assert f[1..][1..] == f[2..];
      AdjacentLater(f, x, 2);
    }
  }

  lemma AdjacentLater(f: seq<string>, x: string, k: nat)
    requires 1 <= k <= |f| && (forall i :: 0 < i <= k && i < |f| ==> !(f[i - 1] == x && f[i] == x))
    ensures Adjacent(f, x) <==> Adjacent(f[k..], x)
  {
    if Adjacent(f, x) {
      var i :| 0 < i < |f| && f[i - 1] == x && f[i] == x;
      assert f[k..][i - k - 1] == x && f[k..][i - k] == x;
    }
    if Adjacent(f[k..], x) {
      var i :| 0 < i < |f[k..]| && f[k..][i - 1] == x && f[k..][i] == x;
      assert f[i + k - 1] == x && f[i + k] == x;
    }
  }

  /** A list without duplicates is one on which the loop does what it should. */
  lemma DistinctIsRemoved(f: seq<string>, x: string)
    requires NoDuplicates(f)
    ensures !Panics(f, x) && WithoutFinalizer(f, x) == Others(f, x) && NoDuplicates(Others(f, x))
  {
    RemovedExactly(f, x);
    OthersDistinct(f, x);
  }

  lemma {:induction false} OthersDistinct(f: seq<string>, x: string)
    ensures forall y :: y in Others(f, x) ==> y in f
    ensures NoDuplicates(f) ==> NoDuplicates(Others(f, x))
  {
    if f != [] {
      var g := Others(f[1..], x);
      OthersDistinct(f[1..], x);
      if NoDuplicates(f) {
        assert f[0] !in f[1..];
        assert NoDuplicates(g);
      }
    }
  }

  /** Lists on which it does not: one that is indexed out of bounds, and one on
      which a finalizer is left. */
  lemma DuplicatesAreNotRemoved(x: string, y: string)
    requires x != y
    ensures Panics([x, x], x)
    ensures !Panics([x, x, y], x) && WithoutFinalizer([x, x, y], x) == [x, y]
  {
    assert [x, x][..1] == [x];
    assert [x, x, y][2..] == [y] && [y][1..] == [];
    assert WithoutFinalizer([y], x) == [y];
  }

  /** Removing what was added gives the list back, order included. */
  lemma RemoveUndoesAdd(f: seq<string>, x: string)
    requires x !in f
    ensures var g := WithFinalizer(f, x); !Panics(g, x) && WithoutFinalizer(g, x) == f
  {
    var g := f + [x];
    assert g[..|f|] == f;
    RemovedExactly(g, x);
    OthersAppended(f, x);
  }

  lemma {:induction false} OthersAppended(f: seq<string>, x: string)
    requires x !in f
    ensures Others(f + [x], x) == f
  {
    if f != [] {
      assert (f + [x])[1..] == f[1..] + [x];
      OthersAppended(f[1..], x);
    }
  }
}
