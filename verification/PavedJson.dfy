/** Getting, setting and deleting by field path: `pkg/fieldpath/paved.go`.

`SetIn` and `DeleteIn` return the tree as the program leaves it together with
whether it reports success, also when it reports an error.
 */
module PavedJson {
  import opened FieldPath
  import opened Json

  // ---- get ----

  /** `getValueFromInterface`; an empty path yields nil. */
  function Get(it: JSON, s: Segments): Lookup {
    if s == [] then Found(Null) else At(it, s)
  }

  method GetValue(data: JSON, s: Segments) returns (r: Lookup)
    ensures r == Get(data, s)
  {
    var it := data;
    var i := 0;
    while i < |s|
      invariant 0 <= i <= |s| && (s != [] ==> i < |s|)
      invariant At(data, s) == At(it, s[i..])
    {
      var current := s[i];
      var last := i == |s| - 1;
      assert s[i..][0] == current && s[i..][1..] == s[i + 1..];
      match current {
        case IndexSegment(n) =>
          if !it.Arr? { return WrongType; }
          if n >= |it.elems| { return NotFound; }
          if last { return Found(it.elems[n]); }
          it := it.elems[n];
        case FieldSegment(f) =>
          if it.Obj? {
            if f !in it.fields { return NotFound; }
            if last { return Found(it.fields[f]); }
            it := it.fields[f];
          } else if it.Null? {
            return NotFound;
          } else {
            return WrongType;
          }
      }
      i := i + 1;
    }
    r := Found(Null);
  }

  // ---- set ----

  function Nulls(n: nat): (r: seq<JSON>)
    ensures |r| == n && forall i :: 0 <= i < n ==> r[i] == Null
  {
    seq(n, _ => Null)
  }

  /** What is created for the next segment to address. */
  function Fresh(next: Segment): JSON {
    match next
    case IndexSegment(i) => Arr(Nulls(i + 1))
    case FieldSegment(_) => Obj(map[])
  }

  /** An array the next segment indexes past its end is padded with nulls. */
  function Grown(child: JSON, next: Segment): JSON {
    if next.IndexSegment? && child.Arr? && next.index >= |child.elems|
    then Arr(child.elems + Nulls(next.index - |child.elems| + 1))
    else child
  }

  /** `prepareElement`: a null element is replaced. */
  function PreparedElement(child: JSON, next: Segment): JSON {
    if child.Null? then Fresh(next) else Grown(child, next)
  }

  /** `prepareField`: an absent field is created, a null one is kept. */
  function PreparedField(fields: map<string, JSON>, f: string, next: Segment): JSON {
    if f !in fields then Fresh(next) else Grown(fields[f], next)
  }

  /** The array a segment indexes is long enough. */
  predicate Reachable(it: JSON, s: Segments) {
    s != [] && s[0].IndexSegment? && it.Arr? ==> s[0].index < |it.elems|
  }

  datatype Written = Written(tree: JSON, ok: bool)

  function SetIn(it: JSON, s: Segments, v: JSON): Written
    requires Reachable(it, s)
    decreases |s|
  {
    if s == [] then Written(it, true)
    else match s[0]
      case IndexSegment(i) =>
        if !it.Arr? then Written(it, false)
        else if |s| == 1 then Written(Arr(it.elems[i := v]), true)
        else
          var w := SetIn(PreparedElement(it.elems[i], s[1]), s[1..], v);
          Written(Arr(it.elems[i := w.tree]), w.ok)
      case FieldSegment(f) =>
        if !it.Obj? then Written(it, false)
        else if |s| == 1 then Written(Obj(it.fields[f := v]), true)
        else
          var w := SetIn(PreparedField(it.fields, f, s[1]), s[1..], v);
          Written(Obj(it.fields[f := w.tree]), w.ok)
  }

  /** `validateSegments`; a limit of 0 means none. */
  predicate IndexesAllowed(s: Segments, limit: nat) {
    limit > 0 ==> forall i :: 0 <= i < |s| && s[i].IndexSegment? ==> s[i].index <= limit
  }

  method ValidateSegments(s: Segments, limit: nat) returns (ok: bool)
    ensures ok <==> IndexesAllowed(s, limit)
  {
    if limit == 0 { return true; }
    for i := 0 to |s|
      invariant forall k :: 0 <= k < i && s[k].IndexSegment? ==> s[k].index <= limit
    {
      if s[i].IndexSegment? && s[i].index > limit { return false; }
    }
    return true;
  }

  function Set(tree: JSON, limit: nat, s: Segments, v: JSON): Written
    requires tree.Obj?
  {
    if IndexesAllowed(s, limit) then SetIn(tree, s, v) else Written(tree, false)
  }

  // ---- delete ----

  /** `deleteField`. */
  function DeleteChild(it: JSON, s: Segment): Written {
    match s
    case IndexSegment(i) =>
      if !it.Arr? then Written(it, false)
      else if |it.elems| <= i then Written(it, true)
      else Written(Arr(it.elems[..i] + it.elems[i + 1..]), true)
    case FieldSegment(f) =>
      if !it.Obj? then Written(it, false) else Written(Obj(it.fields - {f}), true)
  }

  function DeleteIn(it: JSON, s: Segments): Written {
    if s == [] then Written(it, true)
    else if |s| == 1 then DeleteChild(it, s[0])
    else match Child(it, s[0])
      case Found(c) =>
        var w := DeleteIn(c, s[1..]);
        Written(ReplaceChild(it, s[0], w.tree), w.ok)
      case NotFound => Written(it, !it.Null?)
      case WrongType => Written(it, false)
  }

  /** Removing an element from the backing array: later ones move down. */
  method ShiftDown(a: array<JSON>, i: nat)
    requires i < a.Length
    modifies a
    ensures a[..a.Length - 1] == old(a[..i]) + old(a[i + 1..])
  {
    var k := i;
    while k < a.Length - 1
      invariant i <= k < a.Length
      invariant forall x :: 0 <= x < i ==> a[x] == old(a[x])
      invariant forall x :: i <= x < k ==> a[x] == old(a[x + 1])
      invariant forall x :: k <= x < a.Length ==> a[x] == old(a[x])
    {
      a[k] := a[k + 1];
      k := k + 1;
    }
  }

  method DeleteFieldOf(obj: JSON, s: Segment) returns (w: Written)
    ensures w == DeleteChild(obj, s)
  {
    match s {
      case IndexSegment(i) =>
        if !obj.Arr? { return Written(obj, false); }
        if |obj.elems| == 0 || |obj.elems| <= i { return Written(obj, true); }
        var elems := obj.elems;
        var backing := new JSON[|elems|](k requires 0 <= k < |elems| => elems[k]);
        assert backing[..] == elems;
        ShiftDown(backing, i);
        return Written(Arr(backing[..backing.Length - 1]), true);
      case FieldSegment(f) =>
        if !obj.Obj? { return Written(obj, false); }
        return Written(Obj(obj.fields - {f}), true);
    }
  }
}
