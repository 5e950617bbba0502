/** Wildcard expansion: `ExpandWildcards` and `expandWildcards` of
`pkg/fieldpath/paved.go`.

The program replaces the first wildcard by each element or key in turn and
starts over from the root. The definitions below say, walking the tree once,
which paths that returns and how often, when it fails, and when it never ends.
 */
module Expand {
  import opened Text
  import opened FieldPath
  import opened Json
  import opened PavedJson

  predicate IsWild(s: Segment) {
    s == FieldSegment(WILDCARD)
  }

  function WildCount(s: Segments): nat {
    if s == [] then 0 else (if IsWild(s[0]) then 1 else 0) + WildCount(s[1..])
  }

  /** `p` is `pattern` with every wildcard replaced by something else. */
  predicate Instance(p: Segments, pattern: Segments) {
    && |p| == |pattern|
    && forall i :: 0 <= i < |p| ==> if IsWild(pattern[i]) then !IsWild(p[i]) else p[i] == pattern[i]
  }

  /** `p` is such an instance and can be read. */
  predicate Matches(data: JSON, pattern: Segments, p: Segments) {
    Instance(p, pattern) && At(data, p).Found?
  }

  /** A match whose wildcards stand for elements or for keys without outer quotes. */
  predicate Yields(data: JSON, pattern: Segments, p: Segments) {
    && Matches(data, pattern, p)
    && forall i :: 0 <= i < |p| && IsWild(pattern[i]) && p[i].FieldSegment? ==> Unquoted(p[i].field)
  }

  /** The keys that are made the segment `f`. */
  function Like(keys: set<string>, f: string): set<string> {
    set k | k in keys && Trim(k) == f
  }

  /** How often the loop over the children of `it` takes the segment `s`. */
  function Taken(it: JSON, s: Segment): nat {
    match it
    case Arr(_) => if s.IndexSegment? then 1 else 0
    case Obj(m) => if s.FieldSegment? then |Like(m.Keys, s.field)| else 0
    case _ => 0
  }

  /** How often an expansion is to return `p`. */
  function Times(it: JSON, pattern: Segments, p: Segments): nat
    decreases |pattern|
  {
    if |p| != |pattern| then 0
    else if pattern == [] then 1
    else if IsWild(p[0]) || (!IsWild(pattern[0]) && p[0] != pattern[0]) then 0
    else
      match Child(it, p[0])
      case Found(c) => (if IsWild(pattern[0]) then Taken(it, p[0]) else 1) * Times(c, pattern[1..], p[1..])
      case _ => 0
  }

  /** The data clash with the pattern: a wildcard meets a scalar or a null, a
      segment meets a value of the wrong kind, or a wildcard meets an array too
      long for its elements to be written as indexes. */
  predicate Clash(it: JSON, pattern: Segments)
    decreases |pattern|
  {
    pattern != [] &&
    if IsWild(pattern[0]) then
      match it
      case Arr(a) => |a| > UINT32_LIMIT || exists i :: 0 <= i < |a| && Clash(a[i], pattern[1..])
      case Obj(m) => exists k :: k in m && Unquoted(k) && Clash(m[k], pattern[1..])
      case _ => true
    else
      match Child(it, pattern[0])
      case Found(c) => Clash(c, pattern[1..])
      case NotFound => false
      case WrongType => true
  }

  /** A wildcard meets an object with a key that is made a wildcard again. Of an
      array only the elements before which none clashes are reached. */
  predicate Starred(it: JSON, pattern: Segments)
    decreases |pattern|
  {
    pattern != [] &&
    if IsWild(pattern[0]) then
      match it
      case Arr(a) =>
        exists i :: 0 <= i < |a| && i < UINT32_LIMIT && Starred(a[i], pattern[1..])
                    && forall j :: 0 <= j < i ==> !Clash(a[j], pattern[1..])
      case Obj(m) => exists k :: k in m && (Trim(k) == WILDCARD || (Unquoted(k) && Starred(m[k], pattern[1..])))
      case _ => false
    else
      match Child(it, pattern[0])
      case Found(c) => Starred(c, pattern[1..])
      case _ => false
  }

  /** Every key anywhere satisfies `ok`. */
  predicate Keys(j: JSON, ok: string -> bool) {
    match j
    case Arr(a) => forall i :: 0 <= i < |a| ==> Keys(a[i], ok)
    case Obj(m) => forall k :: k in m ==> ok(k) && Keys(m[k], ok)
    case _ => true
  }

  datatype Expansion = Expanded(paths: seq<Segments>) | Failed

  /** What an expansion returns: it fails exactly on a clash, and otherwise
      returns every path as often as it is to. */
  ghost predicate Correct(data: JSON, pattern: Segments, r: Expansion) {
    && (r.Failed? <==> Clash(data, pattern))
    && (r.Expanded? ==> forall p :: multiset(r.paths)[p] == Times(data, pattern, p))
  }

  predicate Distinct(paths: seq<Segments>) {
    forall i, j :: 0 <= i < j < |paths| ==> paths[i] != paths[j]
  }

  /** What one may expect of the paths: all matches, once each. */
  ghost predicate Exact(data: JSON, pattern: Segments, paths: seq<Segments>) {
    Distinct(paths) && forall p :: p in paths <==> Matches(data, pattern, p)
  }

  /** All wildcards up to `i` are gone. */
  predicate Tame(pattern: Segments, i: nat)
    requires i <= |pattern|
  {
    forall k :: 0 <= k < i ==> !IsWild(pattern[k])
  }

  // ---- replacing one wildcard ----

  lemma {:induction false} WildCountReplace(s: Segments, i: nat, x: Segment)
    requires i < |s| && IsWild(s[i]) && !IsWild(x)
    ensures WildCount(s[i := x]) == WildCount(s) - 1
  {
    if i > 0 {
      assert s[i := x][1..] == s[1..][i - 1 := x];
      WildCountReplace(s[1..], i - 1, x);
    } else {
      assert s[0 := x][1..] == s[1..];
    }
  }

  /** Where the tame part of the pattern leads decides whether there is a clash. */
  lemma {:induction false} ClashBelow(data: JSON, pattern: Segments, i: nat)
    requires i <= |pattern| && Tame(pattern, i)
    ensures Clash(data, pattern) <==> match At(data, pattern[..i])
                                      case Found(x) => Clash(x, pattern[i..])
                                      case NotFound => false
                                      case WrongType => true
    decreases i
  {
    if i == 0 {
      assert pattern[..0] == [] && pattern[0..] == pattern;
    } else {
      assert pattern[..i][0] == pattern[0] && pattern[..i][1..] == pattern[1..][..i - 1];
      assert pattern[1..][i - 1..] == pattern[i..];
      if Child(data, pattern[0]).Found? { ClashBelow(Child(data, pattern[0]).value, pattern[1..], i - 1); }
    }
  }

  /** Replacing the wildcard by a child narrows the clash to that child. */
  lemma ClashReplace(data: JSON, pattern: Segments, i: nat, x: Segment)
    requires i < |pattern| && Tame(pattern, i) && !IsWild(x)
    requires At(data, pattern[..i]).Found?
    ensures Clash(data, pattern[i := x]) <==> match Child(At(data, pattern[..i]).value, x)
                                              case Found(c) => Clash(c, pattern[i + 1..])
                                              case NotFound => false
                                              case WrongType => true
  {
    var narrowed := pattern[i := x];
    assert narrowed[..i] == pattern[..i] && narrowed[i..][0] == x && narrowed[i..][1..] == pattern[i + 1..];
    ClashBelow(data, narrowed, i);
  }

  /** Where the tame part of the pattern leads decides whether it is starred. */
  lemma {:induction false} StarredBelow(data: JSON, pattern: Segments, i: nat)
    requires i <= |pattern| && Tame(pattern, i)
    ensures Starred(data, pattern) <==> At(data, pattern[..i]).Found? && Starred(At(data, pattern[..i]).value, pattern[i..])
    decreases i
  {
    if i == 0 {
      assert pattern[..0] == [] && pattern[0..] == pattern;
    } else {
      assert pattern[..i][0] == pattern[0] && pattern[..i][1..] == pattern[1..][..i - 1];
      assert pattern[1..][i - 1..] == pattern[i..];
      if Child(data, pattern[0]).Found? { StarredBelow(Child(data, pattern[0]).value, pattern[1..], i - 1); }
    }
  }

  lemma StarredReplace(data: JSON, pattern: Segments, i: nat, x: Segment)
    requires i < |pattern| && Tame(pattern, i) && !IsWild(x)
    requires At(data, pattern[..i]).Found?
    ensures var c := Child(At(data, pattern[..i]).value, x);
            Starred(data, pattern[i := x]) <==> c.Found? && Starred(c.value, pattern[i + 1..])
  {
    var narrowed := pattern[i := x];
    assert narrowed[..i] == pattern[..i] && narrowed[i..][0] == x && narrowed[i..][1..] == pattern[i + 1..];
    StarredBelow(data, narrowed, i);
  }

  // ---- how often a path is returned ----

  lemma {:induction false} TimesPositive(it: JSON, pattern: Segments, p: Segments)
    ensures Times(it, pattern, p) > 0 <==> Yields(it, pattern, p)
    decreases |pattern|
  {
    if |p| == |pattern| && pattern != [] {
      forall i | 0 <= i < |p[1..]| ensures p[1..][i] == p[i + 1] && pattern[1..][i] == pattern[i + 1] {}
      if Child(it, p[0]).Found? {
        var c := Child(it, p[0]).value;
        TimesPositive(c, pattern[1..], p[1..]);
        TakenPositive(it, p[0]);
        YieldsBelow(it, pattern, p);
      }
    }
  }

  lemma YieldsBelow(it: JSON, pattern: Segments, p: Segments)
    requires |p| == |pattern| && pattern != [] && Child(it, p[0]).Found?
    ensures Yields(it, pattern, p) <==>
              && (if IsWild(pattern[0]) then !IsWild(p[0]) && (p[0].FieldSegment? ==> Unquoted(p[0].field)) else p[0] == pattern[0])
              && Yields(Child(it, p[0]).value, pattern[1..], p[1..])
  {
    forall i | 0 <= i < |p[1..]| ensures p[1..][i] == p[i + 1] && pattern[1..][i] == pattern[i + 1] {}
    if Yields(Child(it, p[0]).value, pattern[1..], p[1..]) {
      forall i | 1 <= i < |p| ensures p[i] == p[1..][i - 1] && pattern[i] == pattern[1..][i - 1] {}
    }
  }

  lemma TakenPositive(it: JSON, s: Segment)
    requires Child(it, s).Found?
    ensures Taken(it, s) > 0 <==> (s.FieldSegment? ==> Unquoted(s.field))
  {
    if s.FieldSegment? {
      TrimFacts(s.field);
      var like := Like(it.fields.Keys, s.field);
      if Unquoted(s.field) { assert s.field in like; }
      if like != {} {
        var k :| k in like;
        TrimFacts(k);
      }
    }
  }

  /** The children of the node a wildcard meets share out the paths. */
  lemma {:induction false} TimesReplace(data: JSON, pattern: Segments, i: nat, p: Segments)
    requires i < |pattern| == |p| && Tame(pattern, i) && IsWild(pattern[i]) && !IsWild(p[i])
    requires At(data, pattern[..i]).Found?
    ensures Times(data, pattern, p) == Taken(At(data, pattern[..i]).value, p[i]) * Times(data, pattern[i := p[i]], p)
    decreases i
  {
    var narrowed := pattern[i := p[i]];
    if i == 0 {
      assert pattern[..0] == [] && narrowed[1..] == pattern[1..];
    } else {
      assert pattern[..i][0] == pattern[0] && pattern[..i][1..] == pattern[1..][..i - 1];
      assert narrowed[1..] == pattern[1..][i - 1 := p[1..][i - 1]];
      TimesReplace(Child(data, pattern[0]).value, pattern[1..], i - 1, p[1..]);
    }
  }

  /** A path that does not have the segment put for the wildcard is not returned. */
  lemma TimesOther(data: JSON, pattern: Segments, i: nat, p: Segments)
    requires i < |pattern| && !IsWild(pattern[i]) && (|p| != |pattern| || p[i] != pattern[i])
    ensures Times(data, pattern, p) == 0
  {
    TimesPositive(data, pattern, p);
  }

  lemma LikeMore(done: set<string>, k: string, f: string)
    requires k !in done
    ensures |Like(done + {k}, f)| == |Like(done, f)| + if Trim(k) == f then 1 else 0
  {
    assert Like(done + {k}, f) == Like(done, f) + if Trim(k) == f then {k} else {};
  }

  // ---- the loop over an array ----

  lemma IndexOfElement(ix: nat)
    ensures FieldOrIndex(Itoa(ix)) == if ix < UINT32_LIMIT then IndexSegment(ix) else FieldSegment(Itoa(ix))
    ensures !IsWild(FieldOrIndex(Itoa(ix)))
  {
    ItoaDigits(ix);
    TrimFacts(Itoa(ix));
    assert IsDigit(Itoa(ix)[0]);
  }

  /** How often `p` comes from the first `ix` elements. */
  function TimesUpTo(data: JSON, pattern: Segments, i: nat, ix: nat, p: Segments): nat
    requires i < |pattern|
  {
    if |p| == |pattern| && p[i].IndexSegment? && p[i].index < ix then Times(data, pattern[i := p[i]], p) else 0
  }

  lemma OneMoreElement(data: JSON, pattern: Segments, i: nat, ix: nat, res: seq<Segments>, sub: seq<Segments>)
    requires i < |pattern| && forall p :: multiset(res)[p] == TimesUpTo(data, pattern, i, ix, p)
    requires Correct(data, pattern[i := IndexSegment(ix)], Expanded(sub))
    ensures forall p :: multiset(res + sub)[p] == TimesUpTo(data, pattern, i, ix + 1, p)
  {
    forall p ensures multiset(res + sub)[p] == TimesUpTo(data, pattern, i, ix + 1, p) {
      assert multiset(res)[p] == TimesUpTo(data, pattern, i, ix, p);
      assert multiset(sub)[p] == Times(data, pattern[i := IndexSegment(ix)], p);
      if |p| != |pattern| || p[i] != IndexSegment(ix) { TimesOther(data, pattern[i := IndexSegment(ix)], i, p); }
    }
  }

  lemma AllElements(data: JSON, pattern: Segments, i: nat, a: seq<JSON>, p: Segments)
    requires i < |pattern| && Tame(pattern, i) && IsWild(pattern[i]) && At(data, pattern[..i]) == Found(Arr(a))
    ensures TimesUpTo(data, pattern, i, |a|, p) == Times(data, pattern, p)
  {
    if |p| == |pattern| && !IsWild(p[i]) {
      TimesReplace(data, pattern, i, p);
      if p[i].FieldSegment? || p[i].index >= |a| { NotBelow(data, pattern, i, p); }
    } else {
      TimesPositive(data, pattern, p);
    }
  }

  /** Nothing is returned where the node met has no such child. */
  lemma NotBelow(data: JSON, pattern: Segments, i: nat, p: Segments)
    requires i < |pattern| && Tame(pattern, i) && At(data, pattern[..i]).Found?
    requires |p| == |pattern| && !Child(At(data, pattern[..i]).value, p[i]).Found?
    ensures Times(data, pattern, p) == 0
  {
    TimesPositive(data, pattern, p);
    if Yields(data, pattern, p) {
      assert p[..i] == pattern[..i] && p == p[..i] + p[i..];
      AtConcat(data, p[..i], p[i..]);
      assert false;
    }
  }

  /** What the loop knows when it comes to an element no earlier one of which
      clashed: its call ends, and fails exactly if the element clashes. */
  lemma ElementIsReached(data: JSON, pattern: Segments, i: nat, a: seq<JSON>, ix: nat)
    requires i < |pattern| && Tame(pattern, i) && IsWild(pattern[i]) && At(data, pattern[..i]) == Found(Arr(a)) && ix < |a|
    requires !Starred(data, pattern) && ix <= UINT32_LIMIT && forall k :: 0 <= k < ix ==> !Clash(a[k], pattern[i + 1..])
    ensures var next := pattern[i := FieldOrIndex(Itoa(ix))];
            && !Starred(data, next) && WildCount(next) < WildCount(pattern)
            && (Clash(data, next) <==> ix == UINT32_LIMIT || Clash(a[ix], pattern[i + 1..]))
            && (Clash(data, next) ==> Clash(data, pattern))
            && (ix < UINT32_LIMIT ==> FieldOrIndex(Itoa(ix)) == IndexSegment(ix))
  {
    var x := FieldOrIndex(Itoa(ix));
    assert pattern[i..][0] == pattern[i] && pattern[i..][1..] == pattern[i + 1..];
    IndexOfElement(ix);
    ClashBelow(data, pattern, i);
    StarredBelow(data, pattern, i);
    WildCountReplace(pattern, i, x);
    ClashReplace(data, pattern, i, x);
    StarredReplace(data, pattern, i, x);
  }

  lemma NoElementClashes(data: JSON, pattern: Segments, i: nat, a: seq<JSON>)
    requires i < |pattern| && Tame(pattern, i) && IsWild(pattern[i]) && At(data, pattern[..i]) == Found(Arr(a))
    requires |a| <= UINT32_LIMIT && forall k :: 0 <= k < |a| ==> !Clash(a[k], pattern[i + 1..])
    ensures !Clash(data, pattern)
  {
    assert pattern[i..][0] == pattern[i] && pattern[i..][1..] == pattern[i + 1..];
    ClashBelow(data, pattern, i);
  }

  method ExpandElements(data: JSON, segments: Segments, i: nat, a: seq<JSON>) returns (r: Expansion)
    requires !Starred(data, segments) && i < |segments| && Tame(segments, i) && IsWild(segments[i])
    requires At(data, segments[..i]) == Found(Arr(a))
    ensures Correct(data, segments, r)
    decreases WildCount(segments), 0
  {
    hide Clash, Starred, Times, Correct;
    var res: seq<Segments> := [];
    for ix := 0 to |a|
      invariant ix <= UINT32_LIMIT
      invariant forall k :: 0 <= k < ix ==> !Clash(a[k], segments[i + 1..])
      invariant forall p :: multiset(res)[p] == TimesUpTo(data, segments, i, ix, p)
    {
      ElementIsReached(data, segments, i, a, ix);
      var sub := ExpandSegments(data, segments[i := FieldOrIndex(Itoa(ix))]);
      CorrectParts(data, segments[i := FieldOrIndex(Itoa(ix))], sub);
      if sub.Failed? {
        FailedIsCorrect(data, segments);
        return Failed;
      }
      OneMoreElement(data, segments, i, ix, res, sub.paths);
      res := res + sub.paths;
    }
    NoElementClashes(data, segments, i, a);
    forall p ensures multiset(res)[p] == Times(data, segments, p) { AllElements(data, segments, i, a, p); }
    ExpandedIsCorrect(data, segments, res);
    r := Expanded(res);
  }

  lemma CorrectParts(data: JSON, pattern: Segments, r: Expansion)
    requires Correct(data, pattern, r)
    ensures r.Failed? <==> Clash(data, pattern)
  {}

  lemma FailedIsCorrect(data: JSON, pattern: Segments)
    requires Clash(data, pattern)
    ensures Correct(data, pattern, Failed)
  {}

  lemma ExpandedIsCorrect(data: JSON, pattern: Segments, paths: seq<Segments>)
    requires !Clash(data, pattern) && forall p :: multiset(paths)[p] == Times(data, pattern, p)
    ensures Correct(data, pattern, Expanded(paths))
  {}

  // ---- the loop over an object ----

  /** How often `p` comes from the keys in `done`. */
  function TimesFrom(data: JSON, pattern: Segments, i: nat, done: set<string>, p: Segments): nat
    requires i < |pattern|
  {
    if |p| == |pattern| && p[i].FieldSegment? then |Like(done, p[i].field)| * Times(data, pattern[i := p[i]], p) else 0
  }

  lemma OneMoreKey(data: JSON, pattern: Segments, i: nat, done: set<string>, k: string, res: seq<Segments>, sub: seq<Segments>)
    requires i < |pattern| && k !in done && Trim(k) != WILDCARD
    requires forall p :: multiset(res)[p] == TimesFrom(data, pattern, i, done, p)
    requires Correct(data, pattern[i := Field(k)], Expanded(sub))
    ensures forall p :: multiset(res + sub)[p] == TimesFrom(data, pattern, i, done + {k}, p)
  {
    forall p: Segments ensures multiset(res + sub)[p] == TimesFrom(data, pattern, i, done + {k}, p) {
      assert multiset(res)[p] == TimesFrom(data, pattern, i, done, p);
      assert multiset(sub)[p] == Times(data, pattern[i := Field(k)], p);
      KeyAdds(data, pattern, i, done, k, p);
    }
  }

  lemma KeyAdds(data: JSON, pattern: Segments, i: nat, done: set<string>, k: string, p: Segments)
    requires i < |pattern| && k !in done && Trim(k) != WILDCARD
    ensures TimesFrom(data, pattern, i, done + {k}, p) == TimesFrom(data, pattern, i, done, p) + Times(data, pattern[i := Field(k)], p)
  {
    hide Times, Like;
    if |p| == |pattern| && p[i] == Field(k) {
      LikeMore(done, k, p[i].field);
      Distributes(|Like(done, p[i].field)|, Times(data, pattern[i := p[i]], p));
    } else {
      TimesOther(data, pattern[i := Field(k)], i, p);
      if |p| == |pattern| && p[i].FieldSegment? { LikeMore(done, k, p[i].field); }
    }
  }

  lemma Distributes(a: nat, b: nat)
    ensures (a + 1) * b == a * b + b
  {}

  lemma AllKeys(data: JSON, pattern: Segments, i: nat, m: map<string, JSON>, p: Segments)
    requires i < |pattern| && Tame(pattern, i) && IsWild(pattern[i]) && At(data, pattern[..i]) == Found(Obj(m))
    requires forall k :: k in m ==> Trim(k) != WILDCARD
    ensures TimesFrom(data, pattern, i, m.Keys, p) == Times(data, pattern, p)
  {
    if |p| == |pattern| && !IsWild(p[i]) {
      TimesReplace(data, pattern, i, p);
    } else {
      TimesPositive(data, pattern, p);
      if |p| == |pattern| && p[i].FieldSegment? { assert Like(m.Keys, p[i].field) == {}; }
    }
  }

  /** What the loop knows when it comes to a key. */
  lemma KeyIsReached(data: JSON, pattern: Segments, i: nat, m: map<string, JSON>, k: string)
    requires i < |pattern| && Tame(pattern, i) && IsWild(pattern[i]) && At(data, pattern[..i]) == Found(Obj(m)) && k in m
    requires !Starred(data, pattern)
    ensures var next := pattern[i := Field(k)];
            && Trim(k) != WILDCARD && !Starred(data, next) && WildCount(next) < WildCount(pattern)
            && (Clash(data, next) ==> Clash(data, pattern))
            && (Unquoted(k) && Clash(m[k], pattern[i + 1..]) ==> Clash(data, next))
  {
    assert pattern[i..][0] == pattern[i] && pattern[i..][1..] == pattern[i + 1..];
    TrimFacts(k);
    ClashBelow(data, pattern, i);
    StarredBelow(data, pattern, i);
    WildCountReplace(pattern, i, Field(k));
    ClashReplace(data, pattern, i, Field(k));
    StarredReplace(data, pattern, i, Field(k));
  }

  lemma NoKeyClashes(data: JSON, pattern: Segments, i: nat, m: map<string, JSON>)
    requires i < |pattern| && Tame(pattern, i) && IsWild(pattern[i]) && At(data, pattern[..i]) == Found(Obj(m))
    requires forall k :: k in m && Unquoted(k) ==> !Clash(m[k], pattern[i + 1..])
    ensures !Clash(data, pattern)
  {
    assert pattern[i..][0] == pattern[i] && pattern[i..][1..] == pattern[i + 1..];
    ClashBelow(data, pattern, i);
  }

  method ExpandKeys(data: JSON, segments: Segments, i: nat, m: map<string, JSON>) returns (r: Expansion)
    requires !Starred(data, segments) && i < |segments| && Tame(segments, i) && IsWild(segments[i])
    requires At(data, segments[..i]) == Found(Obj(m))
    ensures Correct(data, segments, r)
    decreases WildCount(segments), 0
  {
    hide Clash, Starred, Times, Correct, TimesFrom;
    var res: seq<Segments> := [];
    var keys := m.Keys;
    NoneYet(data, segments, i);
    assert m.Keys - keys == {};
    while keys != {}
      invariant keys <= m.Keys
      invariant forall k :: k in m.Keys - keys ==> Trim(k) != WILDCARD && (Unquoted(k) ==> !Clash(m[k], segments[i + 1..]))
      invariant forall p :: multiset(res)[p] == TimesFrom(data, segments, i, m.Keys - keys, p)
      decreases keys
    {
      var k :| k in keys;
      KeyIsReached(data, segments, i, m, k);
      var sub := ExpandSegments(data, segments[i := Field(k)]);
      CorrectParts(data, segments[i := Field(k)], sub);
      if sub.Failed? {
        FailedIsCorrect(data, segments);
        return Failed;
      }
      OneMoreKey(data, segments, i, m.Keys - keys, k, res, sub.paths);
      assert m.Keys - (keys - {k}) == m.Keys - keys + {k};
      res := res + sub.paths;
      keys := keys - {k};
    }
    assert m.Keys - keys == m.Keys;
    NoKeyClashes(data, segments, i, m);
    forall p ensures multiset(res)[p] == Times(data, segments, p) { AllKeys(data, segments, i, m, p); }
    ExpandedIsCorrect(data, segments, res);
    r := Expanded(res);
  }

  lemma NoneYet(data: JSON, pattern: Segments, i: nat)
    requires i < |pattern|
    ensures forall p :: TimesFrom(data, pattern, i, {}, p) == 0
  {
    forall f: string ensures Like({}, f) == {} {}
  }

  // ---- the program ----

  /** `expandWildcards`. It ends because each round has one wildcard less, unless
      the pattern is starred. It fails exactly when pattern and data clash, and
      otherwise returns the matches whose wildcards are not quoted keys, each as
      often as keys come down to the same segments. Keys come in any order. */
  method ExpandSegments(data: JSON, segments: Segments) returns (r: Expansion)
    requires !Starred(data, segments)
    ensures Correct(data, segments, r)
    decreases WildCount(segments), 1
  {
    var it := data;
    var i := 0;
    while i < |segments|
      invariant 0 <= i <= |segments| && Tame(segments, i)
      invariant At(data, segments[..i]) == Found(it)
    {
      ClashBelow(data, segments, i);
      if IsWild(segments[i]) {
        match it {
          case Arr(a) => r := ExpandElements(data, segments, i, a);
          case Obj(m) => r := ExpandKeys(data, segments, i, m);
          case _ =>
            assert segments[i..][0] == segments[i];
            r := Failed;
        }
        return;
      }
      var v := GetValue(data, segments[..i + 1]);
      ClashBelow(data, segments, i + 1);
      if v.NotFound? {
        NothingThere(data, segments, i + 1);
        return Expanded([]);
      }
      if v.WrongType? { return Failed; }
      it := v.value;
      i := i + 1;
    }
    assert segments[..i] == segments;
    ClashBelow(data, segments, i);
    OnlyItself(data, segments);
    r := Expanded([segments]);
  }

  lemma NothingThere(data: JSON, pattern: Segments, i: nat)
    requires i <= |pattern| && Tame(pattern, i) && !At(data, pattern[..i]).Found?
    ensures forall p :: Times(data, pattern, p) == 0
  {
    forall p ensures Times(data, pattern, p) == 0 {
      TimesPositive(data, pattern, p);
      if Yields(data, pattern, p) {
        assert p[..i] == pattern[..i] && p == p[..i] + p[i..];
        AtConcat(data, p[..i], p[i..]);
        assert false;
      }
    }
  }

  lemma {:induction false} TimesOfItself(data: JSON, pattern: Segments)
    requires Tame(pattern, |pattern|) && At(data, pattern).Found?
    ensures Times(data, pattern, pattern) == 1
  {
    if pattern != [] {
      assert forall k :: 0 <= k < |pattern[1..]| ==> pattern[1..][k] == pattern[k + 1];
      TimesOfItself(Child(data, pattern[0]).value, pattern[1..]);
    }
  }

  lemma OnlyItself(data: JSON, pattern: Segments)
    requires Tame(pattern, |pattern|) && At(data, pattern).Found?
    ensures forall p :: multiset([pattern])[p] == Times(data, pattern, p)
  {
    TimesOfItself(data, pattern);
    forall p ensures multiset([pattern])[p] == Times(data, pattern, p) {
      if p != pattern { TimesPositive(data, pattern, p); }
    }
  }

  // ---- when calls never end ----

  function FirstWild(s: Segments): (i: nat)
    ensures i <= |s| && Tame(s, i) && (i < |s| ==> IsWild(s[i]))
  {
    if s == [] || IsWild(s[0]) then 0 else 1 + FirstWild(s[1..])
  }

  /** The pattern with its first wildcard replaced. */
  function Narrowed(pattern: Segments, x: Segment): Segments {
    var i := FirstWild(pattern);
    if i < |pattern| then pattern[i := x] else pattern
  }

  /** The call returns without an error, by at most `depth` nested calls. It then
      makes every call of its loop, in whatever order, and each of them does. */
  predicate Succeeds(data: JSON, pattern: Segments, depth: nat)
    decreases depth
  {
    var i := FirstWild(pattern);
    depth > 0 &&
    match At(data, pattern[..i])
    case NotFound => true
    case WrongType => false
    case Found(it) =>
      i < |pattern| ==>
        match it
        case Arr(a) => forall ix :: 0 <= ix < |a| ==> Succeeds(data, Narrowed(pattern, FieldOrIndex(Itoa(ix))), depth - 1)
        case Obj(m) => forall k :: k in m ==> Succeeds(data, Narrowed(pattern, Field(k)), depth - 1)
        case _ => false
  }

  ghost predicate Returns(data: JSON, pattern: Segments) {
    exists depth: nat :: Succeeds(data, pattern, depth)
  }

  /** For some order of keys the call for `pattern` makes the call for `next`. The
      elements of an array come in order, and an error ends the loop. */
  ghost predicate Calls(data: JSON, pattern: Segments, next: Segments) {
    var i := FirstWild(pattern);
    i < |pattern| &&
    match At(data, pattern[..i])
    case Found(Arr(a)) =>
      exists ix :: 0 <= ix < |a| && next == Narrowed(pattern, FieldOrIndex(Itoa(ix)))
                   && forall j :: 0 <= j < ix ==> Returns(data, Narrowed(pattern, FieldOrIndex(Itoa(j))))
    case Found(Obj(m)) => exists k :: k in m && next == Narrowed(pattern, Field(k))
    case _ => false
  }

  ghost predicate Chain(data: JSON, pattern: Segments, calls: nat -> Segments) {
    calls(0) == pattern && forall n: nat :: Calls(data, calls(n), calls(n + 1))
  }

  /** For some order of keys each call makes another, for ever. */
  ghost predicate NeverEnds(data: JSON, pattern: Segments) {
    exists calls :: Chain(data, pattern, calls)
  }

  /** What clashes and what is starred, seen from the first wildcard. */
  lemma AtFirstWild(data: JSON, pattern: Segments)
    ensures var i := FirstWild(pattern);
            var rest := pattern[i..];
            match At(data, pattern[..i])
            case NotFound => !Clash(data, pattern) && !Starred(data, pattern)
            case WrongType => Clash(data, pattern) && !Starred(data, pattern)
            case Found(it) => (Clash(data, pattern) <==> Clash(it, rest)) && (Starred(data, pattern) <==> Starred(it, rest))
    ensures FirstWild(pattern) < |pattern| ==> pattern[FirstWild(pattern)..][1..] == pattern[FirstWild(pattern) + 1..]
  {
    ClashBelow(data, pattern, FirstWild(pattern));
    StarredBelow(data, pattern, FirstWild(pattern));
  }

  /** What becomes of both when the first wildcard is replaced. */
  lemma NarrowedFacts(data: JSON, pattern: Segments, x: Segment)
    requires FirstWild(pattern) < |pattern| && At(data, pattern[..FirstWild(pattern)]).Found? && !IsWild(x)
    ensures var rest := pattern[FirstWild(pattern) + 1..];
            && WildCount(Narrowed(pattern, x)) == WildCount(pattern) - 1
            && match Child(At(data, pattern[..FirstWild(pattern)]).value, x)
               case NotFound => !Clash(data, Narrowed(pattern, x)) && !Starred(data, Narrowed(pattern, x))
               case WrongType => Clash(data, Narrowed(pattern, x)) && !Starred(data, Narrowed(pattern, x))
               case Found(c) =>
                 && (Clash(data, Narrowed(pattern, x)) <==> Clash(c, rest))
                 && (Starred(data, Narrowed(pattern, x)) <==> Starred(c, rest))
  {
    var i := FirstWild(pattern);
    WildCountReplace(pattern, i, x);
    ClashReplace(data, pattern, i, x);
    StarredReplace(data, pattern, i, x);
  }

  lemma ElementFacts(data: JSON, pattern: Segments, a: seq<JSON>, ix: nat)
    requires FirstWild(pattern) < |pattern| && At(data, pattern[..FirstWild(pattern)]) == Found(Arr(a)) && ix < |a|
    ensures var next := Narrowed(pattern, FieldOrIndex(Itoa(ix)));
            var rest := pattern[FirstWild(pattern) + 1..];
            && WildCount(next) == WildCount(pattern) - 1
            && (Clash(data, next) <==> ix >= UINT32_LIMIT || Clash(a[ix], rest))
            && (Starred(data, next) <==> ix < UINT32_LIMIT && Starred(a[ix], rest))
  {
    IndexOfElement(ix);
    NarrowedFacts(data, pattern, FieldOrIndex(Itoa(ix)));
  }

  lemma KeyFacts(data: JSON, pattern: Segments, m: map<string, JSON>, k: string)
    requires FirstWild(pattern) < |pattern| && At(data, pattern[..FirstWild(pattern)]) == Found(Obj(m)) && k in m
    ensures var next := Narrowed(pattern, Field(k));
            var rest := pattern[FirstWild(pattern) + 1..];
            if Trim(k) == WILDCARD then next == pattern
            else
              && WildCount(next) == WildCount(pattern) - 1
              && (Clash(data, next) <==> Trim(k) in m && Clash(m[Trim(k)], rest))
              && (Starred(data, next) <==> Trim(k) in m && Starred(m[Trim(k)], rest))
              && (Unquoted(k) ==> Trim(k) == k)
    ensures Unquoted(Trim(k))
  {
    TrimFacts(k);
    if Trim(k) != WILDCARD { NarrowedFacts(data, pattern, Field(k)); }
  }

  lemma SucceedsByChildren(data: JSON, pattern: Segments, depth: nat)
    requires FirstWild(pattern) < |pattern| && At(data, pattern[..FirstWild(pattern)]).Found?
    requires match At(data, pattern[..FirstWild(pattern)]).value
             case Arr(a) => forall ix :: 0 <= ix < |a| ==> Succeeds(data, Narrowed(pattern, FieldOrIndex(Itoa(ix))), depth)
             case Obj(m) => forall k :: k in m ==> Succeeds(data, Narrowed(pattern, Field(k)), depth)
             case _ => false
    ensures Succeeds(data, pattern, depth + 1)
  {}

  lemma SucceedsAtOnce(data: JSON, pattern: Segments)
    requires var i := FirstWild(pattern);
             At(data, pattern[..i]).NotFound? || (i == |pattern| && At(data, pattern[..i]).Found?)
    ensures Succeeds(data, pattern, WildCount(pattern) + 1)
  {}

  lemma {:induction false} SucceedsIfFine(data: JSON, pattern: Segments)
    requires !Clash(data, pattern) && !Starred(data, pattern)
    ensures Succeeds(data, pattern, WildCount(pattern) + 1)
    decreases WildCount(pattern)
  {
    hide Clash, Starred, Succeeds, Narrowed;
    AtFirstWild(data, pattern);
    var i := FirstWild(pattern);
    if i == |pattern| || !At(data, pattern[..i]).Found? {
      SucceedsAtOnce(data, pattern);
    } else {
      var it := At(data, pattern[..i]).value;
      FineBelow(it, pattern[i..]);
      match it {
        case Arr(a) =>
          forall ix | 0 <= ix < |a| ensures Succeeds(data, Narrowed(pattern, FieldOrIndex(Itoa(ix))), WildCount(pattern)) {
            ElementFacts(data, pattern, a, ix);
            SucceedsIfFine(data, Narrowed(pattern, FieldOrIndex(Itoa(ix))));
          }
        case Obj(m) =>
          forall k | k in m ensures Succeeds(data, Narrowed(pattern, Field(k)), WildCount(pattern)) {
            KeyFacts(data, pattern, m, k);
            SucceedsIfFine(data, Narrowed(pattern, Field(k)));
          }
        case _ =>
      }
      SucceedsByChildren(data, pattern, WildCount(pattern));
    }
  }

  /** Below a wildcard without clash or star every child is fine. */
  lemma FineBelow(it: JSON, rest: Segments)
    requires rest != [] && IsWild(rest[0])
    ensures !Clash(it, rest) && !Starred(it, rest) <==>
            match it
            case Arr(a) => |a| <= UINT32_LIMIT && forall i :: 0 <= i < |a| ==> !Clash(a[i], rest[1..]) && !Starred(a[i], rest[1..])
            case Obj(m) =>
              forall k :: k in m ==> Trim(k) != WILDCARD && (Unquoted(k) ==> !Clash(m[k], rest[1..]) && !Starred(m[k], rest[1..]))
            case _ => false
  {}

  lemma {:induction false} FineIfSucceeds(data: JSON, pattern: Segments, depth: nat)
    requires Succeeds(data, pattern, depth)
    ensures !Clash(data, pattern) && !Starred(data, pattern)
    decreases depth
  {
    hide Clash, Starred;
    AtFirstWild(data, pattern);
    var i := FirstWild(pattern);
    if At(data, pattern[..i]).Found? {
      var it := At(data, pattern[..i]).value;
      if i == |pattern| {
        NothingLeft(it, pattern[i..]);
      } else if it.Arr? {
        forall ix | 0 <= ix < |it.elems|
          ensures ix < UINT32_LIMIT && !Clash(it.elems[ix], pattern[i + 1..]) && !Starred(it.elems[ix], pattern[i + 1..])
        {
          FineElement(data, pattern, it.elems, ix, depth);
        }
        if it.elems != [] { FineElement(data, pattern, it.elems, |it.elems| - 1, depth); }
        FineBelow(it, pattern[i..]);
      } else {
        FineKeys(data, pattern, it.fields, depth);
      }
    }
  }

  lemma {:induction false} FineElement(data: JSON, pattern: Segments, a: seq<JSON>, ix: nat, depth: nat)
    requires Succeeds(data, pattern, depth)
    requires FirstWild(pattern) < |pattern| && At(data, pattern[..FirstWild(pattern)]) == Found(Arr(a)) && ix < |a|
    ensures var rest := pattern[FirstWild(pattern) + 1..]; ix < UINT32_LIMIT && !Clash(a[ix], rest) && !Starred(a[ix], rest)
    decreases depth, 0
  {
    hide Clash, Starred;
    ElementFacts(data, pattern, a, ix);
    FineIfSucceeds(data, Narrowed(pattern, FieldOrIndex(Itoa(ix))), depth - 1);
  }

  lemma NothingLeft(it: JSON, rest: Segments)
    requires rest == []
    ensures !Clash(it, rest) && !Starred(it, rest)
  {}

  lemma {:induction false} FineKeys(data: JSON, pattern: Segments, m: map<string, JSON>, depth: nat)
    requires Succeeds(data, pattern, depth)
    requires FirstWild(pattern) < |pattern| && At(data, pattern[..FirstWild(pattern)]) == Found(Obj(m))
    ensures !Clash(data, pattern) && !Starred(data, pattern)
    decreases depth, 0
  {
    hide Clash, Starred;
    AtFirstWild(data, pattern);
    var i := FirstWild(pattern);
    if k :| k in m && Trim(k) == WILDCARD {
      KeyFacts(data, pattern, m, k);
      FineIfSucceeds(data, pattern, depth - 1);
    } else {
      forall k | k in m && Unquoted(k) ensures !Clash(m[k], pattern[i + 1..]) && !Starred(m[k], pattern[i + 1..]) {
        KeyFacts(data, pattern, m, k);
        FineIfSucceeds(data, Narrowed(pattern, Field(k)), depth - 1);
      }
      FineBelow(Obj(m), pattern[i..]);
    }
  }

  /** A call that neither clashes nor is starred returns, and no other does. */
  lemma ReturnsExactly(data: JSON, pattern: Segments)
    ensures Returns(data, pattern) <==> !Clash(data, pattern) && !Starred(data, pattern)
  {
    hide Clash, Starred, Succeeds;
    if Returns(data, pattern) {
      var depth: nat :| Succeeds(data, pattern, depth);
      FineIfSucceeds(data, pattern, depth);
    }
    if !Clash(data, pattern) && !Starred(data, pattern) { SucceedsIfFine(data, pattern); }
  }

  /** What a pattern that is not starred calls has a wildcard less and is not
      starred either. */
  lemma CallNarrows(data: JSON, pattern: Segments, next: Segments)
    requires Calls(data, pattern, next) && !Starred(data, pattern)
    ensures !Starred(data, next) && WildCount(next) < WildCount(pattern)
  {
    hide Succeeds, Returns;
    AtFirstWild(data, pattern);
    var i := FirstWild(pattern);
    var it := At(data, pattern[..i]).value;
    if it.Arr? {
      var ix :| 0 <= ix < |it.elems| && next == Narrowed(pattern, FieldOrIndex(Itoa(ix)))
                && forall j :: 0 <= j < ix ==> Returns(data, Narrowed(pattern, FieldOrIndex(Itoa(j))));
      ElementFacts(data, pattern, it.elems, ix);
      forall j | 0 <= j < ix ensures !Clash(it.elems[j], pattern[i + 1..]) {
        ElementFacts(data, pattern, it.elems, j);
        ReturnsExactly(data, Narrowed(pattern, FieldOrIndex(Itoa(j))));
      }
    } else {
      var k :| k in it.fields && next == Narrowed(pattern, Field(k));
      KeyFacts(data, pattern, it.fields, k);
    }
  }

  /** What is starred calls something that is: itself, or what leads there. */
  lemma StarredCalls(data: JSON, pattern: Segments)
    requires Starred(data, pattern)
    ensures exists next :: Calls(data, pattern, next) && Starred(data, next)
  {
    hide Succeeds, Returns;
    AtFirstWild(data, pattern);
    var i := FirstWild(pattern);
    var it := At(data, pattern[..i]).value;
    if it.Arr? {
      StarredElement(data, pattern, it.elems);
    } else {
      var k :| k in it.fields && (Trim(k) == WILDCARD || (Unquoted(k) && Starred(it.fields[k], pattern[i + 1..])));
      KeyFacts(data, pattern, it.fields, k);
      assert Calls(data, pattern, Narrowed(pattern, Field(k)));
    }
  }

  lemma StarredElement(data: JSON, pattern: Segments, a: seq<JSON>)
    requires FirstWild(pattern) < |pattern| && At(data, pattern[..FirstWild(pattern)]) == Found(Arr(a))
    requires Starred(data, pattern)
    ensures exists next :: Calls(data, pattern, next) && Starred(data, next)
  {
    AtFirstWild(data, pattern);
    var ix := FirstStarred(a, pattern[FirstWild(pattern) + 1..]);
    hide Succeeds, Returns, Starred, Clash;
    var next := Narrowed(pattern, FieldOrIndex(Itoa(ix)));
    ElementFacts(data, pattern, a, ix);
    forall j | 0 <= j < ix ensures Returns(data, Narrowed(pattern, FieldOrIndex(Itoa(j)))) {
      ElementFacts(data, pattern, a, j);
      ReturnsExactly(data, Narrowed(pattern, FieldOrIndex(Itoa(j))));
    }
    assert Calls(data, pattern, next);
  }

  /** The first starred element that is reached. */
  lemma FirstStarred(a: seq<JSON>, rest: Segments) returns (ix: nat)
    requires exists i :: 0 <= i < |a| && i < UINT32_LIMIT && Starred(a[i], rest) && forall j :: 0 <= j < i ==> !Clash(a[j], rest)
    ensures ix < |a| && ix < UINT32_LIMIT && Starred(a[ix], rest)
    ensures forall j :: 0 <= j < ix ==> !Clash(a[j], rest) && !Starred(a[j], rest)
  {
    var i :| 0 <= i < |a| && i < UINT32_LIMIT && Starred(a[i], rest) && forall j :: 0 <= j < i ==> !Clash(a[j], rest);
    ix := 0;
    while !Starred(a[ix], rest)
      invariant ix <= i && forall j :: 0 <= j < ix ==> !Starred(a[j], rest)
      decreases i - ix
    {
      ix := ix + 1;
    }
  }

  ghost function StarredCall(data: JSON, pattern: Segments): (next: Segments)
    requires Starred(data, pattern)
    ensures Calls(data, pattern, next) && Starred(data, next)
  {
    StarredCalls(data, pattern);
    var next :| Calls(data, pattern, next) && Starred(data, next);
    next
  }

  ghost function NthCall(data: JSON, pattern: Segments, n: nat): (call: Segments)
    requires Starred(data, pattern)
    ensures Starred(data, call)
  {
    if n == 0 then pattern else StarredCall(data, NthCall(data, pattern, n - 1))
  }

  lemma {:induction false} ChainIsStarred(data: JSON, calls: nat -> Segments, n: nat)
    requires forall k: nat :: Calls(data, calls(k), calls(k + 1))
    ensures Starred(data, calls(n))
    decreases WildCount(calls(n))
  {
    hide Calls, Starred;
    if !Starred(data, calls(n)) {
      assert Calls(data, calls(n), calls(n + 1));
      CallNarrows(data, calls(n), calls(n + 1));
      ChainIsStarred(data, calls, n + 1);
    }
  }

  /** The expansion can go on for ever if and only if the pattern is starred. */
  lemma NeverEndsExactly(data: JSON, pattern: Segments)
    ensures NeverEnds(data, pattern) <==> Starred(data, pattern)
  {
    hide Calls, Starred;
    if NeverEnds(data, pattern) {
      var calls :| Chain(data, pattern, calls);
      ChainIsStarred(data, calls, 0);
    }
    if Starred(data, pattern) {
      var calls := (n: nat) => if Starred(data, pattern) then NthCall(data, pattern, n) else pattern;
      assert Chain(data, pattern, calls);
    }
  }

  /** A key that is the wildcard sends the expansion round in circles where a
      wildcard meets it, and is harmless elsewhere. */
  lemma StarKeyNeverEnds()
    ensures var data := Obj(map["a" := Arr([Null]), WILDCARD := Null]);
            && NeverEnds(data, [FieldSegment(WILDCARD)])
            && !NeverEnds(data, [FieldSegment("a"), FieldSegment(WILDCARD)])
  {
    var data := Obj(map["a" := Arr([Null]), WILDCARD := Null]);
    var whole, part := [FieldSegment(WILDCARD)], [FieldSegment("a"), FieldSegment(WILDCARD)];
    TrimFacts(WILDCARD);
    assert WILDCARD in data.fields && Starred(data, whole);
    assert part[1..] == whole && whole[1..] == [];
    assert !Starred(Arr([Null]), whole);
    NeverEndsExactly(data, whole);
    NeverEndsExactly(data, part);
  }

  // ---- what is lost and what repeats ----

  ghost predicate AnyMatch(it: JSON, pattern: Segments) {
    exists p :: Matches(it, pattern, p)
  }

  ghost predicate AnyYield(it: JSON, pattern: Segments) {
    exists p :: Yields(it, pattern, p)
  }

  /** A wildcard meets an object with a quoted key below which there is a match. */
  ghost predicate Loses(it: JSON, pattern: Segments)
    decreases |pattern|
  {
    pattern != [] &&
    if IsWild(pattern[0]) then
      match it
      case Arr(a) => exists i :: 0 <= i < |a| && Loses(a[i], pattern[1..])
      case Obj(m) =>
        exists k :: k in m && k != WILDCARD && if Unquoted(k) then Loses(m[k], pattern[1..]) else AnyMatch(m[k], pattern[1..])
      case _ => false
    else
      match Child(it, pattern[0])
      case Found(c) => Loses(c, pattern[1..])
      case _ => false
  }

  /** A wildcard meets an object with a key that another one is trimmed to, and
      below which there is something to return. */
  ghost predicate Repeats(it: JSON, pattern: Segments)
    decreases |pattern|
  {
    pattern != [] &&
    if IsWild(pattern[0]) then
      match it
      case Arr(a) => exists i :: 0 <= i < |a| && Repeats(a[i], pattern[1..])
      case Obj(m) =>
        exists k :: k in m && k != WILDCARD && Unquoted(k)
                    && (Repeats(m[k], pattern[1..]) || (AnyYield(m[k], pattern[1..]) && exists j :: j in m && j != k && Trim(j) == k))
      case _ => false
    else
      match Child(it, pattern[0])
      case Found(c) => Repeats(c, pattern[1..])
      case _ => false
  }

  lemma MatchesBelow(it: JSON, pattern: Segments, p: Segments)
    requires |p| == |pattern| && pattern != [] && Child(it, p[0]).Found?
    ensures Matches(it, pattern, p) <==>
              && (if IsWild(pattern[0]) then !IsWild(p[0]) else p[0] == pattern[0])
              && Matches(Child(it, p[0]).value, pattern[1..], p[1..])
  {
    forall i | 0 <= i < |p[1..]| ensures p[1..][i] == p[i + 1] && pattern[1..][i] == pattern[i + 1] {}
    if Matches(Child(it, p[0]).value, pattern[1..], p[1..]) {
      forall i | 1 <= i < |p| ensures p[i] == p[1..][i - 1] && pattern[i] == pattern[1..][i - 1] {}
    }
  }

  lemma {:induction false} LostIfLoses(it: JSON, pattern: Segments) returns (p: Segments)
    requires Loses(it, pattern)
    ensures Matches(it, pattern, p) && !Yields(it, pattern, p)
    decreases |pattern|
  {
    var s, q: Segments := pattern[0], [];
    if !IsWild(pattern[0]) {
      q := LostIfLoses(Child(it, s).value, pattern[1..]);
    } else if it.Arr? {
      var i :| 0 <= i < |it.elems| && Loses(it.elems[i], pattern[1..]);
      s := IndexSegment(i);
      q := LostIfLoses(it.elems[i], pattern[1..]);
    } else {
      var k :| k in it.fields && k != WILDCARD
               && if Unquoted(k) then Loses(it.fields[k], pattern[1..]) else AnyMatch(it.fields[k], pattern[1..]);
      s := FieldSegment(k);
      if Unquoted(k) {
        q := LostIfLoses(it.fields[k], pattern[1..]);
      } else {
        q :| Matches(it.fields[k], pattern[1..], q);
      }
    }
    p := [s] + q;
    assert p[1..] == q;
    MatchesBelow(it, pattern, p);
    YieldsBelow(it, pattern, p);
  }

  lemma {:induction false} LosesIfLost(it: JSON, pattern: Segments, p: Segments)
    requires Matches(it, pattern, p) && !Yields(it, pattern, p)
    ensures Loses(it, pattern)
    decreases |pattern|
  {
    if pattern != [] {
      var c := Child(it, p[0]).value;
      MatchesBelow(it, pattern, p);
      YieldsBelow(it, pattern, p);
      if !IsWild(pattern[0]) || p[0].IndexSegment? || Unquoted(p[0].field) { LosesIfLost(c, pattern[1..], p[1..]); }
    }
  }

  lemma ProductOverOne(a: nat, b: nat)
    ensures a * b > 1 <==> (a > 1 && b > 0) || (a > 0 && b > 1)
  {
    if a > 1 && b > 0 { assert a * b >= 2 * b; }
    if a > 0 && b > 1 { assert a * b >= a * 2; }
  }

  lemma LikeTwo(m: map<string, JSON>, k: string)
    requires k in m && Unquoted(k)
    ensures |Like(m.Keys, k)| > 1 <==> exists j :: j in m && j != k && Trim(j) == k
  {
    TrimFacts(k);
    var like := Like(m.Keys, k);
    assert k in like;
    if |like| > 1 {
      assert |like - {k}| > 0;
      var j :| j in like - {k};
    }
    if j :| j in m && j != k && Trim(j) == k {
      assert {j, k} <= like;
      assert |like - {j, k}| == |like| - 2;
    }
  }

  lemma {:induction false} TwiceIfRepeats(it: JSON, pattern: Segments) returns (p: Segments)
    requires Repeats(it, pattern)
    ensures Times(it, pattern, p) > 1
    decreases |pattern|
  {
    var s, q: Segments := pattern[0], [];
    if !IsWild(pattern[0]) {
      q := TwiceIfRepeats(Child(it, s).value, pattern[1..]);
    } else if it.Arr? {
      var i :| 0 <= i < |it.elems| && Repeats(it.elems[i], pattern[1..]);
      s := IndexSegment(i);
      q := TwiceIfRepeats(it.elems[i], pattern[1..]);
    } else {
      var m := it.fields;
      var k :| k in m && k != WILDCARD && Unquoted(k)
               && (Repeats(m[k], pattern[1..]) || (AnyYield(m[k], pattern[1..]) && exists j :: j in m && j != k && Trim(j) == k));
      s := FieldSegment(k);
      TakenPositive(it, s);
      if Repeats(m[k], pattern[1..]) {
        q := TwiceIfRepeats(m[k], pattern[1..]);
      } else {
        q :| Yields(m[k], pattern[1..], q);
        TimesPositive(m[k], pattern[1..], q);
        LikeTwo(m, k);
      }
    }
    p := [s] + q;
    assert p[1..] == q && |q| == |pattern[1..]|;
    ProductOverOne(if IsWild(pattern[0]) then Taken(it, s) else 1, Times(Child(it, s).value, pattern[1..], q));
  }

  lemma {:induction false} RepeatsIfTwice(it: JSON, pattern: Segments, p: Segments)
    requires Times(it, pattern, p) > 1
    ensures Repeats(it, pattern)
    decreases |pattern|
  {
    var c := Child(it, p[0]).value;
    var t := Times(c, pattern[1..], p[1..]);
    ProductOverOne(if IsWild(pattern[0]) then Taken(it, p[0]) else 1, t);
    if t > 1 { RepeatsIfTwice(c, pattern[1..], p[1..]); }
    TimesPositive(c, pattern[1..], p[1..]);
    if IsWild(pattern[0]) && p[0].FieldSegment? {
      TakenPositive(it, p[0]);
      LikeTwo(it.fields, p[0].field);
    }
  }

  lemma CountedTwice(paths: seq<Segments>)
    ensures Distinct(paths) <==> forall p :: multiset(paths)[p] <= 1
  {
    if !Distinct(paths) {
      var i, j :| 0 <= i < j < |paths| && paths[i] == paths[j];
      assert paths == paths[..j] + paths[j..];
      assert paths[i] in paths[..j] && paths[i] in paths[j..];
      assert multiset(paths)[paths[i]] > 1;
    } else {
      forall p ensures multiset(paths)[p] <= 1 { CountedOnce(paths, p); }
    }
  }

  lemma {:induction false} CountedOnce(paths: seq<Segments>, p: Segments)
    requires Distinct(paths)
    ensures multiset(paths)[p] <= 1
  {
    if paths != [] {
      var last := |paths| - 1;
      CountedOnce(paths[..last], p);
      assert paths == paths[..last] + [paths[last]];
      if p == paths[last] { assert p !in paths[..last]; }
    }
  }

  /** The paths returned are the matches whose wildcards are not quoted keys. */
  lemma ReturnsTheYields(data: JSON, pattern: Segments, paths: seq<Segments>)
    requires Correct(data, pattern, Expanded(paths))
    ensures forall p :: p in paths <==> Yields(data, pattern, p)
  {
    forall p ensures p in paths <==> Yields(data, pattern, p) {
      TimesPositive(data, pattern, p);
      assert multiset(paths)[p] == Times(data, pattern, p);
    }
  }

  /** A path is returned twice exactly if keys that come down to one repeat it. */
  lemma DistinctExactly(data: JSON, pattern: Segments, paths: seq<Segments>)
    requires Correct(data, pattern, Expanded(paths))
    ensures Distinct(paths) <==> !Repeats(data, pattern)
  {
    CountedTwice(paths);
    if Repeats(data, pattern) {
      var p := TwiceIfRepeats(data, pattern);
      assert multiset(paths)[p] == Times(data, pattern, p);
    } else {
      forall p ensures multiset(paths)[p] <= 1 {
        assert multiset(paths)[p] == Times(data, pattern, p);
        if Times(data, pattern, p) > 1 { RepeatsIfTwice(data, pattern, p); }
      }
    }
  }

  /** All matches are returned, once each, exactly if none is lost and none is
      repeated. */
  lemma ExactExactly(data: JSON, pattern: Segments, paths: seq<Segments>)
    requires Correct(data, pattern, Expanded(paths))
    ensures Exact(data, pattern, paths) <==> !Loses(data, pattern) && !Repeats(data, pattern)
  {
    ReturnsTheYields(data, pattern, paths);
    DistinctExactly(data, pattern, paths);
    if Loses(data, pattern) {
      var p := LostIfLoses(data, pattern);
      assert p !in paths;
    } else {
      forall p | Matches(data, pattern, p) ensures p in paths {
        if !Yields(data, pattern, p) { LosesIfLost(data, pattern, p); }
      }
    }
  }

  lemma {:induction false} PlainIsExact(it: JSON, pattern: Segments)
    requires Keys(it, Unquoted)
    ensures !Loses(it, pattern) && !Repeats(it, pattern)
    decreases |pattern|
  {
    if pattern != [] {
      match it
      case Arr(a) =>
        forall i | 0 <= i < |a| ensures !Loses(a[i], pattern[1..]) && !Repeats(a[i], pattern[1..]) {
          PlainIsExact(a[i], pattern[1..]);
        }
      case Obj(m) =>
        forall k | k in m ensures !Loses(m[k], pattern[1..]) && !Repeats(m[k], pattern[1..]) && Trim(k) == k {
          PlainIsExact(m[k], pattern[1..]);
          TrimFacts(k);
        }
      case _ =>
    }
  }

  /** With keys that have no outer quotes nothing is lost or repeated. */
  lemma PlainKeysAreExact(data: JSON, pattern: Segments, paths: seq<Segments>)
    requires Keys(data, Unquoted) && Correct(data, pattern, Expanded(paths))
    ensures Exact(data, pattern, paths)
  {
    PlainIsExact(data, pattern);
    ExactExactly(data, pattern, paths);
  }

  /** A quoted key that is lost. */
  lemma QuotedKeyIsLost()
    ensures var data := Obj(map["'a'" := Null]);
            var pattern := [FieldSegment(WILDCARD)];
            !Starred(data, pattern) && Loses(data, pattern)
  {
    var data := Obj(map["'a'" := Null]);
    var rest: Segments := [FieldSegment(WILDCARD)][1..];
    TrimOfQuoted();
    assert rest == [] && Matches(Null, rest, []);
    assert "'a'" in data.fields;
  }

  /** A path that is returned twice. */
  lemma QuotedKeyRepeats()
    ensures var data := Obj(map["a" := Null, "'a'" := Null]);
            var pattern := [FieldSegment(WILDCARD)];
            !Starred(data, pattern) && Repeats(data, pattern)
  {
    var data := Obj(map["a" := Null, "'a'" := Null]);
    var rest: Segments := [FieldSegment(WILDCARD)][1..];
    TrimOfQuoted();
    assert rest == [] && Yields(Null, rest, []);
    assert "a" in data.fields && "'a'" in data.fields;
  }

  lemma TrimOfQuoted()
    ensures Trim("'a'") == "a" && Trim("a") == "a"
  {
    assert TrimLeft("'a'") == TrimLeft("a'") == "a'" by { assert "'a'"[1..] == "a'"; }
    assert TrimRight("a'") == TrimRight("a") == "a" by { assert "a'"[..1] == "a"; }
  }

  // ---- path strings ----

  /** Segments that can be read in data with plain keys, and whose indexes are
      small, can be printed and read back. */
  lemma {:induction false} ReadableFields(data: JSON, p: Segments)
    requires Keys(data, PlainField) && At(data, p).Found?
    ensures forall i :: 0 <= i < |p| && p[i].FieldSegment? ==> PlainField(p[i].field)
  {
    if p != [] {
      ReadableFields(Child(data, p[0]).value, p[1..]);
      forall i | 0 <= i < |p| && p[i].FieldSegment? ensures PlainField(p[i].field) {
        if i > 0 { assert p[i] == p[1..][i - 1]; }
      }
    }
  }

  /** An index in a path that is returned is the pattern's own or that of an
      element of an array that did not clash. */
  lemma {:induction false} YieldIndexes(it: JSON, pattern: Segments, p: Segments)
    requires AllPlainOrEmpty(pattern) && Yields(it, pattern, p) && !Clash(it, pattern)
    ensures forall i :: 0 <= i < |p| && p[i].IndexSegment? ==> p[i].index < UINT32_LIMIT
  {
    if p != [] {
      var c := Child(it, p[0]).value;
      assert PlainOrEmpty(pattern[0]);
      forall i | 0 <= i < |p[1..]| ensures p[1..][i] == p[i + 1] && pattern[1..][i] == pattern[i + 1] {}
      YieldsBelow(it, pattern, p);
      YieldIndexes(c, pattern[1..], p[1..]);
      forall i | 0 <= i < |p| && p[i].IndexSegment? ensures p[i].index < UINT32_LIMIT {
        if i > 0 { assert p[i] == p[1..][i - 1]; }
      }
    }
  }

  lemma KeysWeaken(data: JSON)
    requires Keys(data, PlainField)
    ensures Keys(data, Unquoted)
  {}

  /** The printed form of a path that is returned. */
  ghost predicate Printed(data: JSON, pattern: Segments, s: string) {
    exists p :: Yields(data, pattern, p) && s == Print(p)
  }

  datatype Paths = Paths(paths: seq<string>) | CannotParse | CannotExpand

  /** `ExpandWildcards`. The strings are the printed forms of what the expansion
      returns. With non-empty, bracket-free keys without outer quotes each of
      them parses to a path that can be read, no two are equal, and every match
      is among them. */
  method ExpandPath(data: JSON, path: string) returns (r: Paths)
    requires Parse(path).Ok? ==> !Starred(data, Parse(path).segments)
    ensures r.CannotParse? <==> Parse(path).Unexpected?
    ensures Parse(path).Ok? ==> (r.CannotExpand? <==> Clash(data, Parse(path).segments))
    ensures r.Paths? ==>
              && (forall i :: 0 <= i < |r.paths| ==> Printed(data, Parse(path).segments, r.paths[i]))
              && (forall p :: Yields(data, Parse(path).segments, p) ==> Print(p) in r.paths)
    ensures r.Paths? && Keys(data, PlainField) ==>
              && (forall i :: 0 <= i < |r.paths| ==>
                    && Parse(r.paths[i]).Ok?
                    && Matches(data, Parse(path).segments, Parse(r.paths[i]).segments))
              && (forall i, j :: 0 <= i < j < |r.paths| ==> r.paths[i] != r.paths[j])
              && (forall p :: Matches(data, Parse(path).segments, p) ==> Print(p) in r.paths && Parse(Print(p)) == Ok(p))
  {
    var parsed := ParsePath(path);
    if parsed.Unexpected? { return CannotParse; }
    var e := ExpandSegments(data, parsed.segments);
    if e.Failed? { return CannotExpand; }
    var paths: seq<string> := [];
    for i := 0 to |e.paths|
      invariant |paths| == i
      invariant forall k :: 0 <= k < i ==> paths[k] == Print(e.paths[k])
    {
      var s := SegmentsString(e.paths[i]);
      paths := paths + [s];
    }
    PrintedPaths(data, path, e.paths, paths);
    if Keys(data, PlainField) { PlainPaths(data, path, e.paths, paths); }
    r := Paths(paths);
  }

  predicate Prints(paths: seq<Segments>, strings: seq<string>) {
    |strings| == |paths| && forall k :: 0 <= k < |paths| ==> strings[k] == Print(paths[k])
  }

  lemma PrintedPaths(data: JSON, path: string, paths: seq<Segments>, strings: seq<string>)
    requires Parse(path).Ok? && Correct(data, Parse(path).segments, Expanded(paths)) && Prints(paths, strings)
    ensures forall i :: 0 <= i < |strings| ==> Printed(data, Parse(path).segments, strings[i])
    ensures forall p :: Yields(data, Parse(path).segments, p) ==> Print(p) in strings
  {
    var pattern := Parse(path).segments;
    ReturnsTheYields(data, pattern, paths);
    forall i | 0 <= i < |strings| ensures Printed(data, pattern, strings[i]) {
      assert paths[i] in paths;
    }
    forall p | Yields(data, pattern, p) ensures Print(p) in strings {
      var k :| 0 <= k < |paths| && paths[k] == p;
      assert strings[k] == Print(p);
    }
  }

  lemma PlainPaths(data: JSON, path: string, paths: seq<Segments>, strings: seq<string>)
    requires Parse(path).Ok? && Correct(data, Parse(path).segments, Expanded(paths)) && Prints(paths, strings)
    requires Keys(data, PlainField)
    ensures forall i :: 0 <= i < |strings| ==>
              Parse(strings[i]).Ok? && Matches(data, Parse(path).segments, Parse(strings[i]).segments)
    ensures forall i, j :: 0 <= i < j < |strings| ==> strings[i] != strings[j]
    ensures forall p :: Matches(data, Parse(path).segments, p) ==> Print(p) in strings && Parse(Print(p)) == Ok(p)
  {
    hide Parse, Print, Clash, Times;
    var pattern := Parse(path).segments;
    KeysWeaken(data);
    PlainKeysAreExact(data, pattern, paths);
    ReturnsTheYields(data, pattern, paths);
    forall p | Matches(data, pattern, p) ensures Print(p) in strings && Parse(Print(p)) == Ok(p) {
      var k :| 0 <= k < |paths| && paths[k] == p;
      assert strings[k] == Print(p);
      YieldReadsBack(data, path, p);
    }
    forall i | 0 <= i < |strings| ensures Parse(strings[i]) == Ok(paths[i]) && Matches(data, pattern, paths[i]) {
      assert paths[i] in paths;
      YieldReadsBack(data, path, paths[i]);
    }
  }

  lemma YieldReadsBack(data: JSON, path: string, p: Segments)
    requires Parse(path).Ok? && Keys(data, PlainField)
    requires Yields(data, Parse(path).segments, p) && !Clash(data, Parse(path).segments)
    ensures Parse(Print(p)) == Ok(p)
  {
    ParsedSegments(path);
    ReadableFields(data, p);
    YieldIndexes(data, Parse(path).segments, p);
    ParseUndoesPrint(p);
  }
}
