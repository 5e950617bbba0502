/** JSON trees and the places in them that field paths name. */
module Json {
  import opened FieldPath

  datatype JSON =
    | Null
    | Bool(flag: bool)
    | Num(number: real)
    | Str(text: string)
    | Arr(elems: seq<JSON>)
    | Obj(fields: map<string, JSON>)

  /** The result of following a path. `NotFound` is the error that
      `IsNotFound` recognises, `WrongType` any other. */
  datatype Lookup = Found(value: JSON) | NotFound | WrongType

  function Child(it: JSON, s: Segment): Lookup {
    match s
    case IndexSegment(i) =>
      if !it.Arr? then WrongType
      else if i >= |it.elems| then NotFound
      else Found(it.elems[i])
    case FieldSegment(f) =>
      if it.Obj? then (if f in it.fields then Found(it.fields[f]) else NotFound)
      else if it.Null? then NotFound
      else WrongType
  }

  /** The node a path leads to. */
  function At(it: JSON, p: Segments): Lookup {
    if p == [] then Found(it)
    else match Child(it, p[0])
      case Found(c) => At(c, p[1..])
      case NotFound => NotFound
      case WrongType => WrongType
  }

  function ReplaceChild(it: JSON, s: Segment, x: JSON): JSON
    requires Child(it, s).Found?
  {
    match s
    case IndexSegment(i) => Arr(it.elems[i := x])
    case FieldSegment(f) => Obj(it.fields[f := x])
  }

  /** The tree after an assignment to the place `p`, which exists. */
  function Put(it: JSON, p: Segments, x: JSON): JSON
    requires At(it, p).Found?
  {
    if p == [] then x else ReplaceChild(it, p[0], Put(Child(it, p[0]).value, p[1..], x))
  }

  /** Neither path is a prefix of the other. */
  predicate Diverge(p: Segments, q: Segments) {
    p != [] && q != [] && (p[0] != q[0] || Diverge(p[1..], q[1..]))
  }

  lemma ReplaceChildFacts(it: JSON, s: Segment, x: JSON)
    requires Child(it, s).Found?
    ensures Child(ReplaceChild(it, s, x), s) == Found(x)
    ensures forall t :: t != s ==> Child(ReplaceChild(it, s, x), t) == Child(it, t)
    ensures forall y :: ReplaceChild(ReplaceChild(it, s, x), s, y) == ReplaceChild(it, s, y)
    ensures ReplaceChild(it, s, Child(it, s).value) == it
  {
    forall y ensures ReplaceChild(ReplaceChild(it, s, x), s, y) == ReplaceChild(it, s, y) {
      match s
      case IndexSegment(i) => assert it.elems[i := x][i := y] == it.elems[i := y];
      case FieldSegment(f) => assert it.fields[f := x][f := y] == it.fields[f := y];
    }
    match s
    case IndexSegment(i) => assert it.elems[i := it.elems[i]] == it.elems;
    case FieldSegment(f) => assert it.fields[f := it.fields[f]] == it.fields;
  }

  lemma {:induction false} AtConcat(it: JSON, p: Segments, q: Segments)
    ensures At(it, p + q) == match At(it, p)
                             case Found(x) => At(x, q)
                             case NotFound => NotFound
                             case WrongType => WrongType
  {
    if p == [] {
      assert p + q == q;
    } else {
      assert (p + q)[0] == p[0] && (p + q)[1..] == p[1..] + q;
      if Child(it, p[0]).Found? { AtConcat(Child(it, p[0]).value, p[1..], q); }
    }
  }

  lemma AtOne(it: JSON, s: Segment)
    ensures At(it, [s]) == Child(it, s)
  {
    assert [s][1..] == [];
  }

  lemma AtSnoc(it: JSON, p: Segments, s: Segment)
    requires At(it, p).Found?
    ensures At(it, p + [s]) == Child(At(it, p).value, s)
  {
    AtConcat(it, p, [s]);
    assert [s][1..] == [];
  }

  /** What lies at and below the assigned place is the new value. */
  lemma {:induction false} PutBelow(it: JSON, p: Segments, x: JSON, q: Segments)
    requires At(it, p).Found?
    ensures At(Put(it, p, x), p + q) == At(x, q)
    ensures At(Put(it, p, x), p) == Found(x)
  {
    if p == [] {
      assert p + q == q;
    } else {
      var c := Child(it, p[0]).value;
      PutBelow(c, p[1..], x, q);
      ReplaceChildFacts(it, p[0], Put(c, p[1..], x));
      assert (p + q)[0] == p[0] && (p + q)[1..] == p[1..] + q;
    }
  }

  /** Places off the assigned path keep their contents. */
  lemma {:induction false} PutElsewhere(it: JSON, p: Segments, x: JSON, q: Segments)
    requires At(it, p).Found? && Diverge(p, q)
    ensures At(Put(it, p, x), q) == At(it, q)
  {
    var c := Child(it, p[0]).value;
    ReplaceChildFacts(it, p[0], Put(c, p[1..], x));
    if p[0] == q[0] { PutElsewhere(c, p[1..], x, q[1..]); }
  }

  lemma {:induction false} PutSame(it: JSON, p: Segments)
    requires At(it, p).Found?
    ensures Put(it, p, At(it, p).value) == it
  {
    if p != [] {
      PutSame(Child(it, p[0]).value, p[1..]);
      ReplaceChildFacts(it, p[0], Child(it, p[0]).value);
    }
  }

  lemma {:induction false} PutTwice(it: JSON, p: Segments, x: JSON, y: JSON)
    requires At(it, p).Found?
    ensures At(Put(it, p, x), p).Found?
    ensures Put(Put(it, p, x), p, y) == Put(it, p, y)
  {
    PutBelow(it, p, x, []);
    if p != [] {
      var c := Child(it, p[0]).value;
      PutTwice(c, p[1..], x, y);
      ReplaceChildFacts(it, p[0], Put(c, p[1..], x));
    }
  }

  /** Assigning to a child of the node at `p` is assigning to the place one
      segment further down. */
  lemma {:induction false} PutChild(it: JSON, p: Segments, s: Segment, x: JSON)
    requires At(it, p).Found? && Child(At(it, p).value, s).Found?
    ensures At(it, p + [s]).Found?
    ensures Put(it, p + [s], x) == Put(it, p, ReplaceChild(At(it, p).value, s, x))
  {
    AtSnoc(it, p, s);
    if p == [] {
      assert p + [s] == [s] && [s][1..] == [];
    } else {
      var c := Child(it, p[0]).value;
      PutChild(c, p[1..], s, x);
      assert (p + [s])[0] == p[0] && (p + [s])[1..] == p[1..] + [s];
    }
  }

  lemma {:induction false} PutStaysObject(it: JSON, p: Segments, x: JSON)
    requires At(it, p).Found? && it.Obj? && (p == [] ==> x.Obj?)
    ensures Put(it, p, x).Obj?
  {}
}
