/** What setting, getting and deleting by field path promise each other. */
module PavedLaws {
  import opened FieldPath
  import opened Json
  import opened PavedJson

  /** The node `SetIn` goes on with below the first segment. */
  function Prepared(it: JSON, s: Segments): JSON
    requires Reachable(it, s) && |s| > 1
    requires s[0].IndexSegment? ==> it.Arr?
    requires s[0].FieldSegment? ==> it.Obj?
  {
    match s[0]
    case IndexSegment(i) => PreparedElement(it.elems[i], s[1])
    case FieldSegment(f) => PreparedField(it.fields, f, s[1])
  }

  predicate Fits(it: JSON, s: Segment) {
    if s.IndexSegment? then it.Arr? else it.Obj?
  }

  /** `SetIn` below a first segment that fits, seen from outside. */
  lemma SetInBelow(it: JSON, s: Segments, v: JSON)
    requires Reachable(it, s) && |s| > 1 && Fits(it, s[0])
    ensures Reachable(Prepared(it, s), s[1..])
    ensures var w := SetIn(Prepared(it, s), s[1..], v);
            && SetIn(it, s, v).ok == w.ok
            && Child(SetIn(it, s, v).tree, s[0]) == Found(w.tree)
            && Fits(SetIn(it, s, v).tree, s[0])
            && Reachable(SetIn(it, s, v).tree, s)
            && (Child(it, s[0]) == Found(w.tree) ==> SetIn(it, s, v).tree == it)
            && forall t :: t != s[0] ==> Child(SetIn(it, s, v).tree, t) == Child(it, t)
  {
    if Child(it, s[0]).Found? {
      ReplaceChildFacts(it, s[0], SetIn(Prepared(it, s), s[1..], v).tree);
    }
  }

  lemma SetInLast(it: JSON, s: Segments, v: JSON)
    requires Reachable(it, s) && |s| == 1 && Fits(it, s[0])
    ensures var w := SetIn(it, s, v);
            && w.ok && Child(w.tree, s[0]) == Found(v) && Fits(w.tree, s[0]) && Reachable(w.tree, s)
            && (Child(it, s[0]) == Found(v) ==> w.tree == it)
            && forall t :: t != s[0] ==> Child(w.tree, t) == Child(it, t)
  {
    if Child(it, s[0]).Found? { ReplaceChildFacts(it, s[0], v); }
  }

  /** What preparing a child adds: only nulls become readable. */
  lemma PreparedReads(it: JSON, s: Segments, q: Segments)
    requires Reachable(it, s) && |s| > 1 && Fits(it, s[0]) && q != []
    ensures var before := At(it, [s[0]] + q);
            var after := At(Prepared(it, s), q);
            && (before.Found? ==> after == before)
            && (after.Found? && !before.Found? ==> after.value == Null)
  {
    assert ([s[0]] + q)[1..] == q;
    var c := Child(it, s[0]);
    var c' := Prepared(it, s);
    if !c.Found? || c.value != c' {
      var k := Child(c', q[0]);
      if k.Found? && (!c.Found? || Child(c.value, q[0]) != k) {
        assert k.value == Null;
        assert At(Null, q[1..]).Found? ==> q[1..] == [];
      }
    }
  }

  // ---- failure ----

  /** A set that fails has changed nothing. */
  lemma {:induction false} FailedSetChangesNothing(it: JSON, s: Segments, v: JSON)
    requires Reachable(it, s) && !SetIn(it, s, v).ok
    ensures SetIn(it, s, v).tree == it
    decreases |s|
  {
    if |s| > 1 && Fits(it, s[0]) {
      SetInBelow(it, s, v);
      var p := Prepared(it, s);
      FailedSetChangesNothing(p, s[1..], v);
      FreshAccepts(s[1], s[1..], v);
    }
  }

  /** Below a node made for the path nothing fails. */
  lemma {:induction false} FreshAccepts(next: Segment, s: Segments, v: JSON)
    requires s != [] && s[0] == next
    ensures Reachable(Fresh(next), s) && SetIn(Fresh(next), s, v).ok
    decreases |s|
  {
    if |s| > 1 {
      SetInBelow(Fresh(next), s, v);
      FreshAccepts(s[1], s[1..], v);
    }
  }

  // ---- the lens laws ----

  /** A value that was set is read back. */
  lemma {:induction false} GetAfterSet(it: JSON, s: Segments, v: JSON)
    requires Reachable(it, s) && s != [] && SetIn(it, s, v).ok
    ensures At(SetIn(it, s, v).tree, s) == Found(v)
    decreases |s|
  {
    if |s| == 1 {
      SetInLast(it, s, v);
      assert s[1..] == [];
    } else {
      SetInBelow(it, s, v);
      GetAfterSet(Prepared(it, s), s[1..], v);
    }
  }

  /** At the level of paths: the law holds for every path but the empty one,
      which sets nothing and reads nil. */
  lemma SetThenGet(tree: JSON, limit: nat, s: Segments, v: JSON)
    requires tree.Obj? && Set(tree, limit, s, v).ok
    ensures Get(Set(tree, limit, s, v).tree, s) == Found(v) <==> s != [] || v == Null
  {
    if s != [] { GetAfterSet(tree, s, v); }
  }

  /** Setting what is already there changes nothing. */
  lemma {:induction false} SetWhatWasRead(it: JSON, s: Segments, v: JSON)
    requires s != [] && At(it, s) == Found(v)
    ensures Reachable(it, s) && SetIn(it, s, v) == Written(it, true)
    decreases |s|
  {
    if |s| == 1 {
      SetInLast(it, s, v);
    } else {
      var c := Child(it, s[0]).value;
      assert Child(c, s[1]).Found?;
      assert Prepared(it, s) == c;
      SetInBelow(it, s, v);
      SetWhatWasRead(c, s[1..], v);
    }
  }

  /** Of two sets at one place the last one counts. */
  lemma {:induction false} LastSetWins(it: JSON, s: Segments, v: JSON, u: JSON)
    requires Reachable(it, s) && s != [] && SetIn(it, s, v).ok
    ensures Reachable(SetIn(it, s, v).tree, s)
    ensures SetIn(SetIn(it, s, v).tree, s, u) == SetIn(it, s, u)
    decreases |s|
  {
    var first := SetIn(it, s, v).tree;
    if |s| == 1 {
      SetInLast(it, s, v);
      OverwriteLast(it, s, v, u);
    } else {
      SetInBelow(it, s, v);
      var below := SetIn(Prepared(it, s), s[1..], v).tree;
      LastSetWins(Prepared(it, s), s[1..], v, u);
      SetFits(Prepared(it, s), s[1..], v);
      assert Prepared(first, s) == below;
      OverwriteBelow(it, s, below, SetIn(below, s[1..], u).tree);
    }
  }

  lemma OverwriteLast(it: JSON, s: Segments, v: JSON, u: JSON)
    requires Reachable(it, s) && |s| == 1 && Fits(it, s[0])
    ensures Reachable(SetIn(it, s, v).tree, s)
    ensures SetIn(SetIn(it, s, v).tree, s, u) == SetIn(it, s, u)
  {
    match s[0]
    case IndexSegment(i) => assert it.elems[i := v][i := u] == it.elems[i := u];
    case FieldSegment(f) => assert it.fields[f := v][f := u] == it.fields[f := u];
  }

  lemma OverwriteBelow(it: JSON, s: Segments, x: JSON, y: JSON)
    requires Reachable(it, s) && s != [] && Fits(it, s[0])
    ensures s[0].IndexSegment? ==> it.elems[s[0].index := x][s[0].index := y] == it.elems[s[0].index := y]
    ensures s[0].FieldSegment? ==> it.fields[s[0].field := x][s[0].field := y] == it.fields[s[0].field := y]
  {}

  /** After a successful set the node fits the path and is long enough. */
  lemma SetFits(it: JSON, s: Segments, v: JSON)
    requires Reachable(it, s) && s != [] && SetIn(it, s, v).ok
    ensures Fits(SetIn(it, s, v).tree, s[0]) && Reachable(SetIn(it, s, v).tree, s)
  {}

  /** Off the path that was set, every successful read is as before, and what
      can be read only now is a null that pads a grown array. */
  lemma {:induction false} SetElsewhere(it: JSON, s: Segments, v: JSON, q: Segments)
    requires Reachable(it, s) && SetIn(it, s, v).ok && Diverge(s, q)
    ensures At(it, q).Found? ==> At(SetIn(it, s, v).tree, q) == At(it, q)
    ensures At(SetIn(it, s, v).tree, q).Found? && !At(it, q).Found? ==> At(SetIn(it, s, v).tree, q).value == Null
    decreases |s|
  {
    if |s| == 1 {
      SetInLast(it, s, v);
    } else {
      SetInBelow(it, s, v);
      if s[0] == q[0] {
        SetElsewhere(Prepared(it, s), s[1..], v, q[1..]);
        PreparedReads(it, s, q[1..]);
        assert [s[0]] + q[1..] == q;
      }
    }
  }

  // ---- array lengths ----

  /** The length of the array at `p`, 0 where there is none. */
  function LengthAt(it: JSON, p: Segments): nat {
    match At(it, p)
    case Found(x) => if x.Arr? then |x.elems| else 0
    case _ => 0
  }

  function Max(a: nat, b: nat): nat {
    if a < b then b else a
  }

  /** Every array on the path ends up just long enough, or as long as it was. */
  lemma {:induction false} SetLengths(it: JSON, s: Segments, v: JSON, i: nat)
    requires Reachable(it, s) && SetIn(it, s, v).ok && i < |s| && s[i].IndexSegment?
    ensures var after := At(SetIn(it, s, v).tree, s[..i]);
            && after.Found? && after.value.Arr?
            && |after.value.elems| == Max(LengthAt(it, s[..i]), s[i].index + 1)
    decreases |s|
  {
    if |s| == 1 {
    } else if i == 0 {
      assert s[..0] == [];
      SetInBelow(it, s, v);
    } else {
      SetInBelow(it, s, v);
      var rest, q := s[1..], s[1..][..i - 1];
      SetLengths(Prepared(it, s), rest, v, i - 1);
      assert s[..i][0] == s[0] && s[..i][1..] == q && s[..i] == [s[0]] + q;
      if i == 1 {
        assert q == [] && s[..1] == [s[0]];
        AtOne(it, s[0]);
      } else {
        PreparedReads(it, s, q);
      }
    }
  }

  // ---- when a set succeeds ----

  /** What a set finds at the i-th place of the path suits the i-th segment: a
      container of the right kind, or a null that is an array element. A null
      that is an object field is not replaced. */
  predicate Suits(it: JSON, s: Segments, i: nat)
    requires i < |s|
  {
    match At(it, s[..i])
    case Found(x) => Fits(x, s[i]) || (x.Null? && i > 0 && s[i - 1].IndexSegment?)
    case _ => true
  }

  ghost predicate Settable(it: JSON, s: Segments) {
    forall i :: 0 <= i < |s| ==> Suits(it, s, i)
  }

  lemma SuitsBelow(it: JSON, s: Segments, i: nat)
    requires Reachable(it, s) && 0 < i < |s| && Fits(it, s[0])
    ensures Suits(it, s, i) <==> Suits(Prepared(it, s), s[1..], i - 1)
  {
    var q := s[1..][..i - 1];
    assert s[..i][0] == s[0] && s[..i][1..] == q && s[..i] == [s[0]] + q;
    if i == 1 {
      assert q == [] && s[..1] == [s[0]];
      AtOne(it, s[0]);
    } else {
      PreparedReads(it, s, q);
      if At(Prepared(it, s), q).Found? && !At(it, [s[0]] + q).Found? { NullOnlyInArrays(it, s, q); }
    }
  }

  /** A null that only preparing made readable sits in an array. */
  lemma NullOnlyInArrays(it: JSON, s: Segments, q: Segments)
    requires Reachable(it, s) && |s| > 1 && Fits(it, s[0]) && q != []
    requires At(Prepared(it, s), q).Found? && !At(it, [s[0]] + q).Found?
    ensures |q| == 1 && q[0].IndexSegment?
  {
    assert ([s[0]] + q)[1..] == q;
    var k := Child(Prepared(it, s), q[0]);
    if q[1..] != [] { assert !At(Null, q[1..]).Found?; }
  }

  /** A set succeeds exactly when every place it finds on its way suits. */
  lemma {:induction false} SetSucceedsExactly(it: JSON, s: Segments, v: JSON)
    requires Reachable(it, s)
    ensures SetIn(it, s, v).ok <==> Settable(it, s)
    decreases |s|
  {
    if s == [] { return; }
    assert s[..0] == [];
    assert Suits(it, s, 0) <==> Fits(it, s[0]);
    if Fits(it, s[0]) && |s| > 1 {
      SetInBelow(it, s, v);
      var p := Prepared(it, s);
      SetSucceedsExactly(p, s[1..], v);
      forall i | 0 < i < |s| ensures Suits(it, s, i) <==> Suits(p, s[1..], i - 1) { SuitsBelow(it, s, i); }
      if Settable(p, s[1..]) {
        forall i | 0 <= i < |s| ensures Suits(it, s, i) {
          if i > 0 { assert Suits(p, s[1..], i - 1); }
        }
      }
      if Settable(it, s) {
        forall i | 0 <= i < |s[1..]| ensures Suits(p, s[1..], i) { assert Suits(it, s, i + 1); }
      }
    }
  }

  /** At the level of paths: every index is within the limit, unless there is none,
      and every place on the way suits. */
  lemma SetAllowedExactly(tree: JSON, limit: nat, s: Segments, v: JSON)
    requires tree.Obj?
    ensures Set(tree, limit, s, v).ok <==>
              && (limit == 0 || forall i :: 0 <= i < |s| && s[i].IndexSegment? ==> s[i].index <= limit)
              && Settable(tree, s)
    ensures !Set(tree, limit, s, v).ok ==> Set(tree, limit, s, v).tree == tree
  {
    SetSucceedsExactly(tree, s, v);
    if !SetIn(tree, s, v).ok { FailedSetChangesNothing(tree, s, v); }
  }

  // ---- delete ----

  /** Deleting below a place that exists is an assignment to that place. */
  lemma {:induction false} DeleteIsPut(it: JSON, p: Segments, s: Segment)
    requires At(it, p).Found?
    ensures var d := DeleteChild(At(it, p).value, s);
            DeleteIn(it, p + [s]) == Written(Put(it, p, d.tree), d.ok)
  {
    if p == [] {
      assert p + [s] == [s];
    } else {
      var c := Child(it, p[0]).value;
      DeleteIsPut(c, p[1..], s);
      assert (p + [s])[0] == p[0] && (p + [s])[1..] == p[1..] + [s];
    }
  }

  /** A delete that fails has changed nothing, and so has one whose path does
      not lead anywhere. */
  lemma {:induction false} FailedDeleteChangesNothing(it: JSON, s: Segments)
    ensures !DeleteIn(it, s).ok ==> DeleteIn(it, s).tree == it
    ensures s != [] && !At(it, s[..|s| - 1]).Found? ==> DeleteIn(it, s).tree == it
  {
    if |s| > 1 && Child(it, s[0]).Found? {
      var c := Child(it, s[0]).value;
      FailedDeleteChangesNothing(c, s[1..]);
      ReplaceChildFacts(it, s[0], c);
      assert s[..|s| - 1][1..] == s[1..][..|s[1..]| - 1];
    }
  }

  /** A delete succeeds exactly when what exists on its path has the right kind. */
  lemma {:induction false} DeleteSucceedsExactly(it: JSON, s: Segments)
    ensures DeleteIn(it, s).ok <==>
            forall i :: 0 <= i < |s| && At(it, s[..i]).Found? ==> Fits(At(it, s[..i]).value, s[i])
  {
    if s == [] { return; }
    assert s[..0] == [] && At(it, s[..0]) == Found(it);
    if |s| > 1 && Fits(it, s[0]) {
      forall i | 0 < i < |s| ensures s[..i][0] == s[0] && s[..i][1..] == s[1..][..i - 1] {}
      if Child(it, s[0]).Found? {
        var c := Child(it, s[0]).value;
        DeleteSucceedsExactly(c, s[1..]);
        forall i | 0 <= i < |s[1..]| ensures At(c, s[1..][..i]) == At(it, s[..i + 1]) && s[1..][i] == s[i + 1] {}
        if !DeleteIn(it, s).ok {
          var i :| 0 <= i < |s[1..]| && At(c, s[1..][..i]).Found? && !Fits(At(c, s[1..][..i]).value, s[1..][i]);
          assert At(it, s[..i + 1]).Found? && !Fits(At(it, s[..i + 1]).value, s[i + 1]);
        }
      }
    }
  }

  /** Setting where the parent container exists is an assignment to it. */
  lemma {:induction false} SetIsPut(it: JSON, p: Segments, s: Segment, v: JSON)
    requires Reachable(it, p + [s]) && At(it, p).Found? && Fits(At(it, p).value, s)
    ensures var n := if p == [] then it else Grown(At(it, p).value, s);
            && Reachable(n, [s])
            && SetIn(it, p + [s], v) == Written(Put(it, p, SetIn(n, [s], v).tree), true)
    decreases |p|
  {
    var all := p + [s];
    if p == [] {
      assert all == [s];
    } else {
      var c := Child(it, p[0]).value;
      assert all[0] == p[0] && all[1..] == p[1..] + [s];
      if |p| == 1 {
        assert p[1..] == [] && all[1..] == [s] && all[1] == s;
        assert Prepared(it, all) == Grown(c, s);
      } else {
        assert Child(c, p[1]).Found?;
        assert all[1] == p[1] && Prepared(it, all) == c;
        SetIsPut(c, p[1..], s, v);
      }
      SetInBelow(it, all, v);
    }
  }

  /** Deleting undoes a set that added a key to an object. */
  lemma DeleteUndoesNewKey(it: JSON, p: Segments, f: string, v: JSON)
    requires Reachable(it, p + [FieldSegment(f)])
    requires At(it, p).Found? && At(it, p).value.Obj? && f !in At(it, p).value.fields
    ensures SetIn(it, p + [FieldSegment(f)], v).ok
    ensures DeleteIn(SetIn(it, p + [FieldSegment(f)], v).tree, p + [FieldSegment(f)]) == Written(it, true)
  {
    var s, n := FieldSegment(f), At(it, p).value;
    SetIsPut(it, p, s, v);
    var longer := Obj(n.fields[f := v]);
    assert longer.fields - {f} == n.fields;
    UndoPut(it, p, s, longer);
  }

  /** Deleting undoes a set that appended to an array. */
  lemma DeleteUndoesAppend(it: JSON, p: Segments, v: JSON)
    requires p != [] && At(it, p).Found? && At(it, p).value.Arr?
    ensures var s := p + [IndexSegment(|At(it, p).value.elems|)];
            && Reachable(it, s) && SetIn(it, s, v).ok
            && DeleteIn(SetIn(it, s, v).tree, s) == Written(it, true)
  {
    var a := At(it, p).value.elems;
    var s := IndexSegment(|a|);
    SetIsPut(it, p, s, v);
    var longer := Arr(a + [v]);
    assert Grown(Arr(a), s).elems[|a| := v] == longer.elems;
    assert longer.elems[..|a|] + longer.elems[|a| + 1..] == a;
    UndoPut(it, p, s, longer);
  }

  lemma UndoPut(it: JSON, p: Segments, s: Segment, x: JSON)
    requires At(it, p).Found? && DeleteChild(x, s) == Written(At(it, p).value, true)
    ensures DeleteIn(Put(it, p, x), p + [s]) == Written(it, true)
  {
    PutBelow(it, p, x, []);
    DeleteIsPut(Put(it, p, x), p, s);
    PutTwice(it, p, x, At(it, p).value);
    PutSame(it, p);
  }

  /** Deleting an element keeps those before it and moves the later ones down by
      one, each with everything below it. */
  lemma DeleteShifts(it: JSON, p: Segments, i: nat, x: nat, q: Segments)
    requires At(it, p).Found? && At(it, p).value.Arr? && i < |At(it, p).value.elems|
    ensures DeleteIn(it, p + [IndexSegment(i)]).ok
    ensures At(DeleteIn(it, p + [IndexSegment(i)]).tree, p + ([IndexSegment(x)] + q))
            == At(it, p + ([IndexSegment(if x < i then x else x + 1)] + q))
  {
    var a := At(it, p).value.elems;
    var shorter := a[..i] + a[i + 1..];
    var y := if x < i then x else x + 1;
    DeleteIsPut(it, p, IndexSegment(i));
    PutBelow(it, p, Arr(shorter), [IndexSegment(x)] + q);
    AtConcat(it, p, [IndexSegment(y)] + q);
    assert ([IndexSegment(x)] + q)[1..] == q && ([IndexSegment(y)] + q)[1..] == q;
    assert Child(Arr(shorter), IndexSegment(x)) == Child(Arr(a), IndexSegment(y));
  }

  /** Deleting a key leaves nothing to read at or below it, and every path that
      parts from it as it was. */
  lemma DeleteKey(it: JSON, p: Segments, f: string, q: Segments)
    requires At(it, p).Found? && At(it, p).value.Obj?
    ensures DeleteIn(it, p + [FieldSegment(f)]).ok
    ensures At(DeleteIn(it, p + [FieldSegment(f)]).tree, p + ([FieldSegment(f)] + q)) == NotFound
    ensures Diverge(p + [FieldSegment(f)], q) ==> At(DeleteIn(it, p + [FieldSegment(f)]).tree, q) == At(it, q)
  {
    var s, n := FieldSegment(f), At(it, p).value;
    var less := Obj(n.fields - {f});
    DeleteIsPut(it, p, s);
    PutBelow(it, p, less, [s] + q);
    if Diverge(p + [s], q) {
      if Diverge(p, q) {
        PutElsewhere(it, p, less, q);
      } else {
        DivergesAtEnd(p, s, q);
        var rest := q[|p|..];
        assert q == p + rest;
        PutBelow(it, p, less, rest);
        AtConcat(it, p, rest);
      }
    }
  }

  lemma {:induction false} DivergesAtEnd(p: Segments, s: Segment, q: Segments)
    requires Diverge(p + [s], q) && !Diverge(p, q)
    ensures |p| < |q| && p == q[..|p|] && q[|p|] != s
  {
    if p == [] {
      assert p + [s] == [s];
    } else {
      assert (p + [s])[0] == p[0] && (p + [s])[1..] == p[1..] + [s];
      DivergesAtEnd(p[1..], s, q[1..]);
    }
  }

  // ---- where a read fails ----

  /** The field or element is missing from what a step is taken in: an object
      without the key, an array that is too short, or a null for a field. */
  predicate Missing(it: JSON, s: Segment) {
    match s
    case FieldSegment(f) => it == Null || (it.Obj? && f !in it.fields)
    case IndexSegment(i) => it.Arr? && |it.elems| <= i
  }

  /** What a step is taken in is of another kind. */
  predicate Misplaced(it: JSON, s: Segment) {
    match s
    case FieldSegment(_) => it.Bool? || it.Num? || it.Str? || it.Arr?
    case IndexSegment(_) => !it.Arr?
  }

  /** A read fails exactly if some step of it does, after the steps before it have
      led somewhere: with an error that says so if something is missing, and with
      another if something is misplaced. */
  lemma {:induction false} GetFailsExactly(it: JSON, p: Segments)
    ensures At(it, p) == NotFound <==>
              exists k :: 0 <= k < |p| && At(it, p[..k]).Found? && Missing(At(it, p[..k]).value, p[k])
    ensures At(it, p) == WrongType <==>
              exists k :: 0 <= k < |p| && At(it, p[..k]).Found? && Misplaced(At(it, p[..k]).value, p[k])
    decreases |p|
  {
    if p != [] {
      var last := |p| - 1;
      var front := p[..last];
      GetFailsExactly(it, front);
      assert p == front + [p[last]];
      AtConcat(it, front, [p[last]]);
      assert forall k :: 0 <= k < last ==> front[..k] == p[..k] && front[k] == p[k];
      if At(it, front).Found? {
        AtOne(At(it, front).value, p[last]);
        forall k | 0 <= k < last ensures !(At(it, p[..k]).Found? && Missing(At(it, p[..k]).value, p[k])) {}
        forall k | 0 <= k < last ensures !(At(it, p[..k]).Found? && Misplaced(At(it, p[..k]).value, p[k])) {}
      } else {
        forall k | k == last ensures !At(it, p[..k]).Found? {}
      }
    }
  }
}
