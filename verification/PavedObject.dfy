/** The paved object: the loops of `pkg/fieldpath/paved.go` that change it in place.

An assignment to the place the path `p` names is written `Put(tree, p, x)`.
 */
module PavedObject {
  import opened Text
  import opened FieldPath
  import opened Json
  import opened PavedJson
  import opened PavedLaws

  lemma SetInStays(it: JSON, s: Segments, v: JSON)
    requires Reachable(it, s) && it.Obj?
    ensures SetIn(it, s, v).tree.Obj?
  {}

  /** One round of the loop that sets a value. */
  lemma SetStep(it: JSON, s: Segments, v: JSON, next: JSON)
    requires Reachable(it, s) && |s| > 1
    requires s[0].IndexSegment? ==> it.Arr? && next == PreparedElement(it.elems[s[0].index], s[1])
    requires s[0].FieldSegment? ==> it.Obj? && next == PreparedField(it.fields, s[0].field, s[1])
    ensures Reachable(next, s[1..])
    ensures var grown := if s[0].IndexSegment? then Arr(it.elems[s[0].index := next]) else Obj(it.fields[s[0].field := next]);
            && Child(grown, s[0]) == Found(next)
            && SetIn(it, s, v) == Written(ReplaceChild(grown, s[0], SetIn(next, s[1..], v).tree), SetIn(next, s[1..], v).ok)
  {
    if s[0].IndexSegment? {
      var i := s[0].index;
      assert it.elems[i := next][i := SetIn(next, s[1..], v).tree] == it.elems[i := SetIn(next, s[1..], v).tree];
    } else {
      var f := s[0].field;
      assert it.fields[f := next][f := SetIn(next, s[1..], v).tree] == it.fields[f := SetIn(next, s[1..], v).tree];
    }
  }

  /** Assigning a prepared child and going on below it. */
  lemma Advance(before: JSON, here: Segments, s: Segment, grown: JSON, next: JSON, x: JSON)
    requires At(before, here).Found? && Child(grown, s) == Found(next)
    ensures At(Put(before, here, grown), here + [s]) == Found(next)
    ensures Put(Put(before, here, grown), here + [s], x) == Put(before, here, ReplaceChild(grown, s, x))
  {
    PutBelow(before, here, grown, [s]);
    assert [s][1..] == [];
    PutChild(Put(before, here, grown), here, s, x);
    PutTwice(before, here, grown, ReplaceChild(grown, s, x));
  }

  class Paved {
    var content: JSON
    var maxFieldPathIndex: nat

    constructor (fields: map<string, JSON>, limit: nat)
      ensures content == Obj(fields) && maxFieldPathIndex == limit
    {
      content := Obj(fields);
      maxFieldPathIndex := limit;
    }

    method SetSegments(s: Segments, v: JSON) returns (ok: bool)
      requires content.Obj?
      modifies `content
      ensures Written(content, ok) == Set(old(content), maxFieldPathIndex, s, v)
      ensures content.Obj?
    {
      SetInStays(content, s, v);
      var allowed := ValidateSegments(s, maxFieldPathIndex);
      if !allowed { return false; }

      var it := content;
      var i := 0;
      while i < |s|
        invariant 0 <= i <= |s| && (s != [] ==> i < |s|)
        invariant At(content, s[..i]) == Found(it)
        invariant Reachable(it, s[i..])
        invariant SetIn(old(content), s, v) == Written(Put(content, s[..i], SetIn(it, s[i..], v).tree), SetIn(it, s[i..], v).ok)
      {
        var current := s[i];
        var last := i == |s| - 1;
        var here := s[..i];
        ghost var rest := s[i..];
        assert rest[0] == current && rest[1..] == s[i + 1..] && s[..i + 1] == here + [current];
        if (current.IndexSegment? && !it.Arr?) || (current.FieldSegment? && !it.Obj?) {
          PutSame(content, here);
          return false;
        }
        if last {
          content := Put(content, here, match current
                                      case IndexSegment(n) => Arr(it.elems[n := v])
                                      case FieldSegment(f) => Obj(it.fields[f := v]));
          return true;
        }
        var next, grown: JSON;
        match current {
          case IndexSegment(n) =>
            next := PreparedElement(it.elems[n], s[i + 1]);
            grown := Arr(it.elems[n := next]);
          case FieldSegment(f) =>
            next := PreparedField(it.fields, f, s[i + 1]);
            grown := Obj(it.fields[f := next]);
        }
        SetStep(it, rest, v, next);
        var before := content;
        content := Put(content, here, grown);
        Advance(before, here, current, grown, next, SetIn(next, s[i + 1..], v).tree);
        it := next;
        i := i + 1;
      }
      return true;
    }

    method DeleteSegments(s: Segments) returns (ok: bool)
      requires content.Obj?
      modifies `content
      ensures Written(content, ok) == DeleteIn(old(content), s)
      ensures content.Obj?
    {
      if |s| == 1 {
        var w := DeleteFieldOf(content, s[0]);
        if !w.ok { return false; }
        content := w.tree;
        return true;
      }

      var it := content;
      var i := 0;
      while i < |s|
        invariant 0 <= i <= |s| && (s != [] ==> i < |s| - 1)
        invariant content == old(content)
        invariant At(content, s[..i]) == Found(it)
        invariant var w := DeleteIn(it, s[i..]); DeleteIn(content, s) == Written(Put(content, s[..i], w.tree), w.ok)
      {
        var current := s[i];
        var beforeLast := i == |s| - 2;
        ghost var here, rest := s[..i], s[i..];
        assert rest[0] == current && rest[1..] == s[i + 1..] && s[..i + 1] == here + [current];
        PutSame(content, here);
        if (current.IndexSegment? && !it.Arr?) || (current.FieldSegment? && !it.Obj?) { return false; }
        if !Child(it, current).Found? { return true; }
        var c := Child(it, current).value;
        AtSnoc(content, here, current);
        PutChild(content, here, current, DeleteIn(c, s[i + 1..]).tree);
        if beforeLast {
          var w := DeleteFieldOf(c, s[|s| - 1]);
          assert s[i + 1..] == [s[|s| - 1]];
          if !w.ok {
            PutSame(content, s[..i + 1]);
            return false;
          }
          PutStaysObject(content, s[..i + 1], w.tree);
          content := Put(content, s[..i + 1], w.tree);
          return true;
        }
        it := c;
        i := i + 1;
      }
      return true;
    }

    /** A value that was set can be read at the same path; a set that fails,
        also on a path that does not parse, leaves the object alone. */
    method SetValue(path: string, v: JSON) returns (ok: bool)
      requires content.Obj?
      modifies `content
      ensures content.Obj?
      ensures ok <==> Parse(path).Ok? && Set(old(content), maxFieldPathIndex, Parse(path).segments, v).ok
      ensures ok ==> content == Set(old(content), maxFieldPathIndex, Parse(path).segments, v).tree
      ensures ok && Parse(path).segments != [] ==> Get(content, Parse(path).segments) == Found(v)
      ensures !ok ==> content == old(content)
    {
      var p := ParsePath(path);
      if p.Unexpected? { return false; }
      ok := SetSegments(p.segments, v);
      if !ok {
        if IndexesAllowed(p.segments, maxFieldPathIndex) { FailedSetChangesNothing(old(content), p.segments, v); }
      } else if p.segments != [] {
        GetAfterSet(old(content), p.segments, v);
      }
    }

    method DeleteField(path: string) returns (ok: bool)
      requires content.Obj?
      modifies `content
      ensures content.Obj?
      ensures ok <==> Parse(path).Ok? && DeleteIn(old(content), Parse(path).segments).ok
      ensures ok ==> content == DeleteIn(old(content), Parse(path).segments).tree
      ensures !ok ==> content == old(content)
    {
      var p := ParsePath(path);
      if p.Unexpected? { return false; }
      ok := DeleteSegments(p.segments);
      FailedDeleteChangesNothing(old(content), p.segments);
    }

    /** `None` when the path does not parse. */
    method GetValueAt(path: string) returns (r: Option<Lookup>)
      ensures r == match Parse(path)
                   case Ok(s) => Some(Get(content, s))
                   case Unexpected(_) => None
    {
      var p := ParsePath(path);
      if p.Unexpected? { return None; }
      var v := GetValue(content, p.segments);
      r := Some(v);
    }
  }
}
