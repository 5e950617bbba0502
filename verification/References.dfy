/** Resolving references from one resource to others (`pkg/reference/reference.go`,
the several-valued case).

The cluster is fixed while references are resolved: the resources of one namespace
by name, those that cannot be read, and the order in which a selector lists its
matches. The value a resource is referenced for is its field `value`. */
module References {
  import opened Text
  import opened Ordering

  /** `Policy`; a missing policy has neither. */
  datatype Policy = Policy(optional: bool, always: bool)

  const NO_POLICY := Policy(false, false)

  datatype Reference = Reference(name: string, policy: Policy)

  datatype Selector = Selector(matchController: bool, policy: Policy)

  datatype Resource = Resource(value: string, controller: Option<string>)

  type Cluster = map<string, Resource>

  datatype Response = Response(values: seq<string>, references: seq<Reference>)

  datatype Error = CannotGet | CannotList | NoMatches | NoValue

  /** The resource that references others: whether it is deleted, its controller. */
  datatype Referrer = Referrer(deleted: bool, controller: Option<string>)

  predicate SameController(a: Option<string>, b: Option<string>) {
    a.Some? && a == b
  }

  /** The error, unless the policy makes it optional. */
  function ResolutionError(p: Policy, e: Option<Error>): Option<Error> {
    if p.optional then None else e
  }

  // ---- requests ----

  class MultiResolutionRequest {
    var current: seq<string>
    var references: seq<Reference>
    var selector: Option<Selector>

    constructor (current: seq<string>, references: seq<Reference>, selector: Option<Selector>)
      ensures this.current == current && this.references == references && this.selector == selector
    {
      this.current, this.references, this.selector := current, references, selector;
    }

    /** Values that are there are kept unless a policy says to resolve always, in
        which case a selector also drops the references it chose before. */
    method IsNoOp() returns (r: bool)
      modifies `references
      ensures selector.Some? && selector.value.policy.always ==> references == [] && !r
      ensures selector.Some? && !selector.value.policy.always ==> references == old(references) && (r <==> current != [])
      ensures selector.None? ==>
                && references == old(references)
                && (r <==> references == [] || (current != [] && forall i :: 0 <= i < |references| ==> !references[i].policy.always))
    {
      var isAlways := false;
      if selector.Some? {
        if selector.value.policy.always {
          references := [];
          isAlways := true;
        }
      } else {
        for i := 0 to |references|
          invariant !isAlways && forall j :: 0 <= j < i ==> !references[j].policy.always
        {
          if references[i].policy.always {
            isAlways := true;
            break;
          }
        }
      }
      if |current| > 0 && !isAlways { return true; }
      return references == [] && selector.None?;
    }
  }

  // ---- responses ----

  /** The response lists the entries of `m` in the order of their keys. */
  ghost predicate Lists(m: map<string, Reference>, rsp: Response) {
    && Increasing(rsp.values) && |rsp.values| == |rsp.references|
    && (forall v :: v in rsp.values <==> v in m)
    && (forall i :: 0 <= i < |rsp.values| ==> rsp.values[i] in m && rsp.references[i] == m[rsp.values[i]])
  }

  lemma ListsUnique(m: map<string, Reference>, a: Response, b: Response)
    requires Lists(m, a) && Lists(m, b)
    ensures a == b
  {
    IncreasingUnique(a.values, b.values);
  }

  /** `Validate`. */
  function Validated(rsp: Response): Option<Error>
    requires |rsp.values| == |rsp.references|
  {
    if rsp.values == [] then Some(NoMatches) else FirstEmpty(rsp, 0)
  }

  function FirstEmpty(rsp: Response, i: nat): Option<Error>
    requires |rsp.values| == |rsp.references|
    decreases |rsp.values| - i
  {
    if i >= |rsp.values| then None
    else if rsp.values[i] == "" then ResolutionError(rsp.references[i].policy, Some(NoValue))
    else FirstEmpty(rsp, i + 1)
  }

  method Validate(rsp: Response) returns (e: Option<Error>)
    requires |rsp.values| == |rsp.references|
    ensures e == Validated(rsp)
  {
    if rsp.values == [] { return Some(NoMatches); }
    for i := 0 to |rsp.values|
      invariant Validated(rsp) == FirstEmpty(rsp, i)
    {
      if rsp.values[i] == "" { return ResolutionError(rsp.references[i].policy, Some(NoValue)); }
    }
    return None;
  }

  /** Since values are in order only the first can be empty. */
  lemma ValidExactly(m: map<string, Reference>, rsp: Response)
    requires Lists(m, rsp)
    ensures Validated(rsp) == None <==> rsp.values != [] && (rsp.values[0] != "" || rsp.references[0].policy.optional)
  {
    if rsp.values != [] && rsp.values[0] != "" { NoneEmpty(rsp, 0); }
  }

  lemma {:induction false} NoneEmpty(rsp: Response, i: nat)
    requires |rsp.values| == |rsp.references| && Increasing(rsp.values) && (i < |rsp.values| ==> rsp.values[i] != "")
    ensures FirstEmpty(rsp, i) == None
    decreases |rsp.values| - i
  {
    if i + 1 < |rsp.values| {
      assert Less(rsp.values[i], rsp.values[i + 1]);
      NoneEmpty(rsp, i + 1);
    }
  }

  /** `sortMapByKeys`. The keys of a map come in any order. */
  method SortMapByKeys(m: map<string, Reference>) returns (rsp: Response)
    ensures Lists(m, rsp)
  {
    var keys := SortedKeys(m.Keys);
    var refs := [];
    for i := 0 to |keys|
      invariant |refs| == i && forall j :: 0 <= j < i ==> refs[j] == m[keys[j]]
    {
      refs := refs + [m[keys[i]]];
    }
    return Response(keys, refs);
  }

  method SortedKeys(all: set<string>) returns (keys: seq<string>)
    ensures Increasing(keys) && forall k :: k in keys <==> k in all
  {
    keys := [];
    var left := all;
    while left != {}
      invariant left <= all && Increasing(keys)
      invariant forall k :: k in keys <==> k in all && k !in left
      decreases |left|
    {
      var k :| k in left;
      var p := |keys|;
      while p > 0 && Less(k, keys[p - 1])
        invariant 0 <= p <= |keys|
        invariant forall j :: p <= j < |keys| ==> Less(k, keys[j])
      {
        p := p - 1;
      }
      InsertIncreasing(keys, p, k);
      InsertMembers(keys, p, k);
      keys := keys[..p] + [k] + keys[p..];
      left := left - {k};
    }
  }

  lemma InsertIncreasing(keys: seq<string>, p: nat, k: string)
    requires Increasing(keys) && p <= |keys| && k !in keys
    requires forall j :: p <= j < |keys| ==> Less(k, keys[j])
    requires p > 0 ==> !Less(k, keys[p - 1])
    ensures Increasing(keys[..p] + [k] + keys[p..])
  {
    if p > 0 { NotLessThenLess(keys[p - 1], k); }
    forall i | 0 <= i < p ensures Less(keys[i], k) {
      if i < p - 1 { LessTransitive(keys[i], keys[p - 1], k); }
    }
  }

  lemma InsertMembers(keys: seq<string>, p: nat, k: string)
    requires p <= |keys|
    ensures forall x :: x in keys[..p] + [k] + keys[p..] <==> x in keys || x == k
  {
    assert keys == keys[..p] + keys[p..];
  }

  // ---- resolving ----

  datatype Fetched = Got(resource: Resource) | NotFound | Unavailable

  function Fetch(c: Cluster, outage: set<string>, name: string): Fetched {
    if name in outage then Unavailable else if name in c then Got(c[name]) else NotFound
  }

  predicate AllFound(c: Cluster, outage: set<string>, refs: seq<Reference>) {
    forall i :: 0 <= i < |refs| ==> Fetch(c, outage, refs[i].name).Got?
  }

  /** The last reference to each value. */
  function ByReferences(c: Cluster, refs: seq<Reference>): map<string, Reference>
    requires forall i :: 0 <= i < |refs| ==> refs[i].name in c
  {
    if refs == [] then map[]
    else
      var last := |refs| - 1;
      ByReferences(c, refs[..last])[c[refs[last].name].value := refs[last]]
  }

  predicate Eligible(c: Cluster, from: Referrer, s: Selector, name: string)
    requires name in c
  {
    !s.matchController || SameController(from.controller, c[name].controller)
  }

  /** The last listed resource with each value. */
  function BySelector(c: Cluster, from: Referrer, s: Selector, listed: seq<string>): map<string, Reference>
    requires forall i :: 0 <= i < |listed| ==> listed[i] in c
  {
    if listed == [] then map[]
    else
      var last := |listed| - 1;
      var m := BySelector(c, from, s, listed[..last]);
      if Eligible(c, from, s, listed[last]) then m[c[listed[last]].value := Reference(listed[last], NO_POLICY)] else m
  }

  /** The outcome for references that are set. */
  ghost predicate Resolved(c: Cluster, outage: set<string>, refs: seq<Reference>, rsp: Response, err: Option<Error>) {
    if AllFound(c, outage, refs) then
      Lists(ByReferences(c, refs), rsp) && err == Validated(rsp)
    else
      // the first one that cannot be read ends it
      exists i :: 0 <= i < |refs| && AllFound(c, outage, refs[..i]) && !Fetch(c, outage, refs[i].name).Got?
                  && rsp == Response([], [])
                  && err == if Fetch(c, outage, refs[i].name).NotFound? then ResolutionError(refs[i].policy, Some(CannotGet))
                            else Some(CannotGet)
  }

  /** The outcome for a selector; the listing fails if there is none. */
  ghost predicate Selected(c: Cluster, from: Referrer, s: Selector, listing: Option<seq<string>>, rsp: Response, err: Option<Error>)
    requires listing.Some? ==> forall i :: 0 <= i < |listing.value| ==> listing.value[i] in c
  {
    match listing
    case None => rsp == Response([], []) && err == Some(CannotList)
    case Some(names) => Lists(BySelector(c, from, s, names), rsp) && err == ResolutionError(s.policy, Validated(rsp))
  }

  method ResolveReferences(c: Cluster, outage: set<string>, refs: seq<Reference>) returns (rsp: Response, err: Option<Error>)
    ensures Resolved(c, outage, refs, rsp, err)
  {
    var valueMap: map<string, Reference> := map[];
    for i := 0 to |refs|
      invariant AllFound(c, outage, refs[..i])
      invariant forall j :: 0 <= j < i ==> refs[..i][j].name in c
      invariant valueMap == ByReferences(c, refs[..i])
    {
      match Fetch(c, outage, refs[i].name)
      case NotFound => return Response([], []), ResolutionError(refs[i].policy, Some(CannotGet));
      case Unavailable => return Response([], []), Some(CannotGet);
      case Got(resource) =>
        assert refs[..i + 1][..i] == refs[..i];
        valueMap := valueMap[resource.value := refs[i]];
    }
    assert refs[..|refs|] == refs;
    rsp := SortMapByKeys(valueMap);
    err := Validate(rsp);
  }

  method SelectReferences(c: Cluster, from: Referrer, s: Selector, listing: Option<seq<string>>) returns (rsp: Response, err: Option<Error>)
    requires listing.Some? ==> forall i :: 0 <= i < |listing.value| ==> listing.value[i] in c
    ensures Selected(c, from, s, listing, rsp, err)
  {
    if listing.None? { return Response([], []), Some(CannotList); }
    var names := listing.value;
    var valueMap: map<string, Reference> := map[];
    for i := 0 to |names|
      invariant valueMap == BySelector(c, from, s, names[..i])
    {
      assert names[..i + 1][..i] == names[..i];
      if s.matchController && !SameController(from.controller, c[names[i]].controller) { continue; }
      valueMap := valueMap[c[names[i]].value := Reference(names[i], NO_POLICY)];
    }
    assert names[..|names|] == names;
    rsp := SortMapByKeys(valueMap);
    var e := Validate(rsp);
    err := ResolutionError(s.policy, e);
  }

  method ResolveMultiple(from: Referrer, current: seq<string>, references: seq<Reference>, selector: Option<Selector>,
                         c: Cluster, outage: set<string>, listing: Option<seq<string>>)
    returns (rsp: Response, err: Option<Error>)
    requires listing.Some? ==> forall i :: 0 <= i < |listing.value| ==> listing.value[i] in c
    // a referrer that is deleted, or has nothing to resolve, keeps what it has
    ensures from.deleted || (references == [] && selector.None?) ==> rsp == Response(current, references) && err == None
    // so does one that has values, unless a policy says to resolve always
    ensures !from.deleted && current != [] && selector.None? && (forall i :: 0 <= i < |references| ==> !references[i].policy.always) ==>
              rsp == Response(current, references) && err == None
    ensures !from.deleted && current != [] && selector.Some? && !selector.value.policy.always ==>
              rsp == Response(current, references) && err == None
    // otherwise references are resolved, where there are any and no selector overrides them
    ensures !from.deleted && references != [] && selector.None?
            && (current == [] || exists i :: 0 <= i < |references| && references[i].policy.always) ==>
              Resolved(c, outage, references, rsp, err)
    ensures !from.deleted && references != [] && selector.Some? && !selector.value.policy.always && current == [] ==>
              Resolved(c, outage, references, rsp, err)
    // and a selector chooses anew
    ensures !from.deleted && selector.Some? && (selector.value.policy.always || (references == [] && current == [])) ==>
              Selected(c, from, selector.value, listing, rsp, err)
  {
    if from.deleted { return Response(current, references), None; }
    var req := new MultiResolutionRequest(current, references, selector);
    var noop := req.IsNoOp();
    if noop { return Response(req.current, req.references), None; }
    if |req.references| > 0 {
      rsp, err := ResolveReferences(c, outage, req.references);
    } else {
      rsp, err := SelectReferences(c, from, selector.value, listing);
    }
  }

  // ---- what the response says ----

  lemma {:induction false} ByReferencesFacts(c: Cluster, refs: seq<Reference>, v: string)
    requires forall i :: 0 <= i < |refs| ==> refs[i].name in c
    ensures v in ByReferences(c, refs) <==> exists i :: 0 <= i < |refs| && c[refs[i].name].value == v
    ensures v in ByReferences(c, refs) ==>
              var r := ByReferences(c, refs)[v]; r in refs && r.name in c && c[r.name].value == v
  {
    if refs != [] {
      var last := |refs| - 1;
      ByReferencesFacts(c, refs[..last], v);
      assert refs == refs[..last] + [refs[last]];
      if i :| 0 <= i < |refs| && c[refs[i].name].value == v {
        if i < last { assert refs[..last][i] == refs[i]; }
      }
    }
  }

  lemma {:induction false} BySelectorFacts(c: Cluster, from: Referrer, s: Selector, listed: seq<string>, v: string)
    requires forall i :: 0 <= i < |listed| ==> listed[i] in c
    ensures v in BySelector(c, from, s, listed) <==>
              exists i :: 0 <= i < |listed| && Eligible(c, from, s, listed[i]) && c[listed[i]].value == v
    ensures v in BySelector(c, from, s, listed) ==>
              var r := BySelector(c, from, s, listed)[v];
              r.name in listed && r.policy == NO_POLICY && Eligible(c, from, s, r.name) && c[r.name].value == v
  {
    if listed != [] {
      var last := |listed| - 1;
      BySelectorFacts(c, from, s, listed[..last], v);
      assert listed == listed[..last] + [listed[last]];
      if i :| 0 <= i < |listed| && Eligible(c, from, s, listed[i]) && c[listed[i]].value == v {
        if i < last { assert listed[..last][i] == listed[i]; }
      }
    }
  }

  /** Values in order, each beside a reference that has it. */
  predicate Aligned(c: Cluster, rsp: Response) {
    && Increasing(rsp.values) && |rsp.values| == |rsp.references|
    && forall i :: 0 <= i < |rsp.values| ==> rsp.references[i].name in c && c[rsp.references[i].name].value == rsp.values[i]
  }

  /** When every reference is found, the values are exactly those of the given
      references, in order and without repetition, each with one of them. */
  lemma ReferencesResolve(c: Cluster, outage: set<string>, refs: seq<Reference>, rsp: Response, err: Option<Error>)
    requires AllFound(c, outage, refs) && Resolved(c, outage, refs, rsp, err)
    ensures Aligned(c, rsp)
    ensures forall i :: 0 <= i < |rsp.references| ==> rsp.references[i] in refs
    ensures forall v :: v in rsp.values <==> exists i :: 0 <= i < |refs| && c[refs[i].name].value == v
  {
    forall v ensures v in rsp.values <==> exists i :: 0 <= i < |refs| && c[refs[i].name].value == v {
      ByReferencesFacts(c, refs, v);
    }
    forall i | 0 <= i < |rsp.values|
      ensures rsp.references[i] in refs && rsp.references[i].name in c && c[rsp.references[i].name].value == rsp.values[i]
    {
      ByReferencesFacts(c, refs, rsp.values[i]);
    }
  }

  /** A reference that cannot be read ends it, with an error unless it is optional
      and there is nothing to read. */
  lemma UnreadableEnds(c: Cluster, outage: set<string>, refs: seq<Reference>, rsp: Response, err: Option<Error>, i: nat)
    requires Resolved(c, outage, refs, rsp, err) && i < |refs|
    requires forall j :: 0 <= j < i ==> refs[j].name in c && refs[j].name !in outage
    requires refs[i].name !in c || refs[i].name in outage
    ensures rsp == Response([], [])
    ensures err == if refs[i].policy.optional && refs[i].name !in outage then None else Some(CannotGet)
  {
    assert !AllFound(c, outage, refs);
    var k :| 0 <= k < |refs| && AllFound(c, outage, refs[..k]) && !Fetch(c, outage, refs[k].name).Got?
             && err == if Fetch(c, outage, refs[k].name).NotFound? then ResolutionError(refs[k].policy, Some(CannotGet))
                       else Some(CannotGet);
    assert forall j :: 0 <= j < k ==> refs[..k][j] == refs[j];
    assert k == i;
  }

  predicate Offers(c: Cluster, from: Referrer, s: Selector, names: seq<string>, v: string)
    requires forall i :: 0 <= i < |names| ==> names[i] in c
  {
    exists i :: 0 <= i < |names| && Eligible(c, from, s, names[i]) && c[names[i]].value == v
  }

  /** The same for a selector and the resources it lists. */
  lemma SelectorResolves(c: Cluster, from: Referrer, s: Selector, names: seq<string>, rsp: Response, err: Option<Error>)
    requires forall i :: 0 <= i < |names| ==> names[i] in c
    requires Selected(c, from, s, Some(names), rsp, err)
    ensures Aligned(c, rsp)
    ensures forall i :: 0 <= i < |rsp.references| ==> rsp.references[i].name in names && rsp.references[i].policy == NO_POLICY
    ensures s.matchController ==>
              && (forall i :: 0 <= i < |rsp.references| ==>
                    && rsp.references[i].name in names && from.controller.Some?
                    && c[rsp.references[i].name].controller == from.controller)
              && (forall v :: v in rsp.values <==>
                    exists i :: 0 <= i < |names| && from.controller.Some? && c[names[i]].controller == from.controller
                                && c[names[i]].value == v)
    ensures !s.matchController ==> forall v :: v in rsp.values <==> exists i :: 0 <= i < |names| && c[names[i]].value == v
  {
    forall v ensures v in rsp.values <==> Offers(c, from, s, names, v) { BySelectorFacts(c, from, s, names, v); }
    forall i | 0 <= i < |rsp.values|
      ensures rsp.references[i].name in names && Eligible(c, from, s, rsp.references[i].name)
      ensures c[rsp.references[i].name].value == rsp.values[i] && rsp.references[i].policy == NO_POLICY
    {
      BySelectorFacts(c, from, s, names, rsp.values[i]);
    }
  }

  /** The values do not depend on the order in which the selector lists. */
  lemma ListingOrderIsIrrelevant(c: Cluster, from: Referrer, s: Selector, names: seq<string>, others: seq<string>,
                                 a: Response, b: Response, e: Option<Error>, f: Option<Error>)
    requires (forall i :: 0 <= i < |names| ==> names[i] in c) && (forall i :: 0 <= i < |others| ==> others[i] in c)
    requires forall n :: n in names <==> n in others
    requires Selected(c, from, s, Some(names), a, e) && Selected(c, from, s, Some(others), b, f)
    ensures a.values == b.values
  {
    SelectorResolves(c, from, s, names, a, e);
    SelectorResolves(c, from, s, others, b, f);
    forall v ensures v in a.values <==> v in b.values {
      OneWay(c, from, s, names, others, v);
      OneWay(c, from, s, others, names, v);
    }
    IncreasingUnique(a.values, b.values);
  }

  lemma OneWay(c: Cluster, from: Referrer, s: Selector, names: seq<string>, others: seq<string>, v: string)
    requires (forall i :: 0 <= i < |names| ==> names[i] in c) && (forall i :: 0 <= i < |others| ==> others[i] in c)
    requires forall n :: n in names ==> n in others
    ensures Offers(c, from, s, names, v) ==> Offers(c, from, s, others, v)
  {
    if Offers(c, from, s, names, v) {
      var i :| 0 <= i < |names| && Eligible(c, from, s, names[i]) && c[names[i]].value == v;
      assert names[i] in others;
      var j :| 0 <= j < |others| && others[j] == names[i];
    }
  }

  lemma {:induction false} ByReferencesAligned(c: Cluster, values: seq<string>, refs: seq<Reference>, i: nat)
    requires Aligned(c, Response(values, refs)) && i < |refs|
    ensures values[i] in ByReferences(c, refs) && ByReferences(c, refs)[values[i]] == refs[i]
  {
    var last := |refs| - 1;
    if i < last {
      assert Less(values[i], values[last]);
      LessIrreflexive(values[i]);
      ByReferencesAligned(c, values[..last], refs[..last], i);
    }
  }

  /** Resolving the references of a response again gives the same response. */
  lemma ResolvingAgainIsStable(c: Cluster, outage: set<string>, rsp: Response, again: Response, err: Option<Error>)
    requires Aligned(c, rsp) && AllFound(c, outage, rsp.references)
    requires Resolved(c, outage, rsp.references, again, err)
    ensures again == rsp
  {
    forall i | 0 <= i < |rsp.values|
      ensures rsp.values[i] in ByReferences(c, rsp.references) && rsp.references[i] == ByReferences(c, rsp.references)[rsp.values[i]]
    {
      ByReferencesAligned(c, rsp.values, rsp.references, i);
    }
    forall v ensures v in rsp.values <==> v in ByReferences(c, rsp.references) {
      ByReferencesFacts(c, rsp.references, v);
    }
    ListsUnique(ByReferences(c, rsp.references), again, rsp);
  }
}
