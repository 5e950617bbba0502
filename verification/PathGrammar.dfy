/** The grammar of field paths, on the text alone: which paths are accepted, what
each part of one means, and where an error is reported. The parser accepts
exactly this language and gives it exactly this meaning. */
module PathGrammar {
  import opened Text
  import opened FieldPath

  // ---- the grammar ----

  /** A part of a path: a bare name, after a period or not, or a text in brackets. */
  datatype Piece = Bare(text: string, dotted: bool) | Boxed(text: string)

  function SpellOne(p: Piece): string {
    match p
    case Bare(t, dotted) => if dotted then "." + t else t
    case Boxed(t) => "[" + t + "]"
  }

  function Spell(ps: seq<Piece>): string {
    if ps == [] then "" else SpellOne(ps[0]) + Spell(ps[1..])
  }

  /** Texts are not empty and hold no brackets, bare ones no period either. */
  predicate TextOk(p: Piece) {
    p.text != "" && BracketFree(p.text) && (p.Bare? ==> '.' !in p.text)
  }

  /** Every bare name has a period before it, except that there is none at the
      start and need be none after a bracket. */
  predicate Follows(ps: seq<Piece>, first: bool, boxed: bool) {
    ps != [] ==>
      && TextOk(ps[0])
      && (ps[0].Bare? && ps[0].dotted ==> !first)
      && (ps[0].Bare? && !ps[0].dotted ==> first || boxed)
      && Follows(ps[1..], false, ps[0].Boxed?)
  }

  predicate WellFormed(ps: seq<Piece>) {
    Follows(ps, true, false)
  }

  // ---- the meaning of a piece ----

  predicate QuotesOnly(s: string) {
    forall i :: 0 <= i < |s| ==> s[i] == '\'' || s[i] == '"'
  }

  predicate NoOuterQuote(s: string) {
    s != "" ==> s[0] != '\'' && s[0] != '"' && s[|s| - 1] != '\'' && s[|s| - 1] != '"'
  }

  predicate IsNumeral(s: string) {
    s != "" && (forall i :: 0 <= i < |s| ==> '0' <= s[i] <= '9') && DigitsValue(s) < 0x1_0000_0000
  }

  /** `t` is `f` between quotes. */
  ghost predicate Quotes(t: string, f: string) {
    NoOuterQuote(f) && exists l, r :: t == l + f + r && QuotesOnly(l) && QuotesOnly(r)
  }

  /** A numeral in brackets is an index; everything else is a field, named by the
      text without its outer quotes. */
  ghost predicate Means(p: Piece, s: Segment) {
    if p.Boxed? && IsNumeral(p.text) then s == IndexSegment(DigitsValue(p.text))
    else s.FieldSegment? && Quotes(p.text, s.field)
  }

  ghost predicate MeanAll(ps: seq<Piece>, sg: Segments) {
    |ps| == |sg| && forall i :: 0 <= i < |ps| ==> Means(ps[i], sg[i])
  }

  // ---- errors ----

  /** No piece starts at `q`, and the error is at `p`. */
  predicate Blocked(path: string, q: nat, p: nat) {
    && q < |path|
    && (path[q] == '.' || path[q] == '[' || path[q] == ']')
    && if path[q] == ']' then p == q
       else if path[q] == '.' then
         // a period is neither first nor last, and has a name after it
         if q == 0 || q == |path| - 1 then p == q else p == q + 1 && IsSpecial(path[p])
       else
         // a bracket is closed, and not empty, and holds no other bracket
         if forall k :: q < k < |path| ==> path[k] != ']' then p == q
         else
           && q < p < |path| && (forall k :: q < k < p ==> path[k] != '[' && path[k] != ']')
           && (path[p] == '[' || (path[p] == ']' && p == q + 1))
  }

  /** What a path stands for. */
  ghost predicate Denotes(path: string, r: Parsed) {
    match r
    case Ok(sg) => exists ps :: WellFormed(ps) && Spell(ps) == path && MeanAll(ps, sg)
    case Unexpected(p) => exists ps :: WellFormed(ps) && Spell(ps) <= path && Blocked(path, |Spell(ps)|, p)
  }

  // ---- what the parser makes of a piece ----

  function SegmentOf(p: Piece): Segment {
    if p.Boxed? then FieldOrIndex(p.text) else Field(p.text)
  }

  function SegmentsOf(ps: seq<Piece>): Segments {
    seq(|ps|, i requires 0 <= i < |ps| => SegmentOf(ps[i]))
  }

  lemma {:induction false} TrimLeftSplits(s: string) returns (l: string)
    ensures s == l + TrimLeft(s) && QuotesOnly(l)
  {
    if s != "" && IsQuote(s[0]) {
      var k := TrimLeftSplits(s[1..]);
      l := [s[0]] + k;
      assert s == [s[0]] + s[1..];
    } else {
      l := "";
    }
  }

  lemma {:induction false} TrimRightSplits(s: string) returns (r: string)
    ensures s == TrimRight(s) + r && QuotesOnly(r)
  {
    if s != "" && IsQuote(s[|s| - 1]) {
      var k := TrimRightSplits(s[..|s| - 1]);
      r := k + [s[|s| - 1]];
      assert s == s[..|s| - 1] + [s[|s| - 1]];
    } else {
      r := "";
    }
  }

  lemma TrimIsUnquoting(t: string)
    ensures Quotes(t, Trim(t))
  {
    var l := TrimLeftSplits(t);
    var r := TrimRightSplits(TrimLeft(t));
    TrimFacts(t);
    assert t == l + Trim(t) + r;
  }

  /** What is left of `t` between its outer quotes. */
  predicate Core(t: string, a: nat, b: nat) {
    && a <= b <= |t|
    && (forall i :: 0 <= i < a ==> IsQuote(t[i])) && (forall i :: b <= i < |t| ==> IsQuote(t[i]))
    && (a < b ==> !IsQuote(t[a]) && !IsQuote(t[b - 1]))
  }

  lemma QuotesCore(t: string, f: string) returns (a: nat, b: nat)
    requires Quotes(t, f)
    ensures Core(t, a, b) && f == t[a..b]
  {
    var l, r :| t == l + f + r && QuotesOnly(l) && QuotesOnly(r);
    a, b := |l|, |l| + |f|;
    forall i | 0 <= i < a ensures IsQuote(t[i]) { assert t[i] == l[i]; }
    forall i | b <= i < |t| ensures IsQuote(t[i]) { assert t[i] == r[i - b]; }
  }

  lemma CoreOnce(t: string, a: nat, b: nat, c: nat, d: nat)
    requires Core(t, a, b) && Core(t, c, d)
    ensures t[a..b] == t[c..d]
  {
    if a < b {
      assert c <= a && b - 1 < d;
      assert a <= c && d - 1 < b;
    }
  }

  lemma QuotesOnce(t: string, f: string, g: string)
    requires Quotes(t, f) && Quotes(t, g)
    ensures f == g
  {
    hide Quotes, Core;
    var a, b := QuotesCore(t, f);
    var c, d := QuotesCore(t, g);
    CoreOnce(t, a, b, c, d);
  }

  lemma SegmentMeans(p: Piece, s: Segment)
    ensures Means(p, s) <==> s == SegmentOf(p)
  {
    TrimIsUnquoting(p.text);
    if s.FieldSegment? && Quotes(p.text, s.field) { QuotesOnce(p.text, s.field, Trim(p.text)); }
  }

  lemma SegmentsMean(ps: seq<Piece>, sg: Segments)
    ensures MeanAll(ps, sg) <==> sg == SegmentsOf(ps)
  {
    hide Means, SegmentOf;
    forall i | 0 <= i < |ps| && i < |sg| ensures Means(ps[i], sg[i]) <==> sg[i] == SegmentOf(ps[i]) {
      SegmentMeans(ps[i], sg[i]);
    }
  }

  // ---- reading pieces ----

  /** What reading goes on to from `pos`. */
  function From(path: string, pos: nat): Parsed
    requires pos <= |path|
  {
    FromItems(FromField(path, pos))
  }

  lemma SpellFirst(ps: seq<Piece>)
    requires ps != []
    ensures Spell(ps) == SpellOne(ps[0]) + Spell(ps[1..])
  {}

  /** After a bare name only a period or a bracket can come. */
  lemma SpellStart(ps: seq<Piece>)
    requires ps != [] && Follows(ps, false, false)
    ensures Spell(ps) != "" && (Spell(ps)[0] == '.' || Spell(ps)[0] == '[')
  {}

  lemma ReadBoxed(path: string, pos: nat, t: string)
    requires pos + |t| + 2 <= |path| && TextOk(Boxed(t)) && path[pos..pos + |t| + 2] == "[" + t + "]"
    ensures From(path, pos) == Prepend(FieldOrIndex(t), From(path, pos + |t| + 2))
  {
    hide FromField, FromItems, FieldOrIndex;
    var rb := pos + |t| + 1;
    var here := "[" + t + "]";
    assert here[1..|t| + 1] == t;
    assert forall k :: pos <= k <= rb ==> path[k] == here[k - pos];
    assert path[pos + 1..rb] == t;
    forall k | pos < k < rb ensures path[k] != '[' && path[k] != ']' {
      assert path[k] == here[k - pos] == t[k - pos - 1] && t[k - pos - 1] in t;
    }
    BracketItems(path, pos, rb);
    FromBracketItems(pos, t, rb, FromField(path, rb + 1));
  }

  lemma ReadBare(path: string, pos: nat, t: string)
    requires pos + |t| <= |path| && TextOk(Bare(t, false)) && path[pos..pos + |t|] == t
    requires pos + |t| < |path| ==> IsSpecial(path[pos + |t|])
    ensures From(path, pos) == Prepend(Field(t), From(path, pos + |t|))
  {
    hide FromField, FromItems, Field;
    var end := pos + |t|;
    forall k | pos <= k < end ensures !IsSpecial(path[k]) { assert path[k] == t[k - pos] && t[k - pos] in t; }
    FieldEndAt(path, pos, end);
    if end < |path| && path[end] == ']' {
      StrayBracket(path, pos);
      FieldEndAt(path, end, end);
      StrayBracket(path, end);
    } else {
      FieldItems(path, pos, end);
      FromFieldItem(pos, t, FromField(path, end));
    }
  }

  lemma StrayBracket(path: string, pos: nat)
    requires pos <= |path| && FieldEnd(path, pos) < |path| && path[FieldEnd(path, pos)] == ']'
    ensures From(path, pos) == Unexpected(FieldEnd(path, pos))
  {}

  lemma ReadDotted(path: string, pos: nat, t: string)
    requires 0 < pos && pos + 1 + |t| <= |path| && TextOk(Bare(t, true)) && path[pos..pos + 1 + |t|] == "." + t
    requires pos + 1 + |t| < |path| ==> IsSpecial(path[pos + 1 + |t|])
    ensures From(path, pos) == Prepend(Field(t), From(path, pos + 1 + |t|))
  {
    hide FromField, FromItems, Field;
    var here := path[pos..pos + 1 + |t|];
    assert here[0] == '.' && here[1..] == t && here[1] == t[0] && t[0] in t;
    assert path[pos + 1..pos + 1 + |t|] == t;
    PeriodItems(path, pos);
    ReadBare(path, pos + 1, t);
  }

  lemma PrependAppends(s: Segment, sg: Segments, p: Parsed)
    ensures Prepend(s, Append(sg, p)) == Append([s] + sg, p)
  {
    if p.Ok? { assert [s] + (sg + p.segments) == ([s] + sg) + p.segments; }
  }

  lemma SegmentsFirst(ps: seq<Piece>)
    requires ps != []
    ensures SegmentsOf(ps) == [SegmentOf(ps[0])] + SegmentsOf(ps[1..])
  {}

  lemma AppendNothing(p: Parsed)
    ensures SegmentsOf([]) == [] && Append([], p) == p
  {}

  lemma SpellCuts(path: string, pos: nat, ps: seq<Piece>, q: nat)
    requires pos <= q <= |path| && path[pos..q] == Spell(ps) && ps != []
    ensures var next := pos + |SpellOne(ps[0])|;
            next <= q && path[pos..next] == SpellOne(ps[0]) && path[next..q] == Spell(ps[1..])
  {
    var n := |SpellOne(ps[0])|;
    SpellFirst(ps);
    assert path[pos..pos + n] == path[pos..q][..n];
    assert path[pos + n..q] == path[pos..q][n..];
  }

  /** The pieces up to `q` yield their segments, and reading goes on from there. */
  lemma {:induction false} ReadPieces(path: string, pos: nat, ps: seq<Piece>, boxed: bool, q: nat)
    requires pos <= q <= |path| && path[pos..q] == Spell(ps) && Follows(ps, pos == 0, boxed)
    requires q < |path| ==> IsSpecial(path[q])
    ensures From(path, pos) == Append(SegmentsOf(ps), From(path, q))
    decreases |ps|
  {
    hide From, SegmentsOf, SegmentOf, Append, Spell;
    if ps == [] {
      NoPieces(pos == 0, boxed);
      AppendNothing(From(path, q));
    } else {
      var p, rest := ps[0], ps[1..];
      SpellCuts(path, pos, ps, q);
      NotEmpty(p);
      ReadPieces(path, pos + |SpellOne(p)|, rest, p.Boxed?, q);
      ReadOne(path, pos, p, rest, q);
      PrependAppends(SegmentOf(p), SegmentsOf(rest), From(path, q));
      SegmentsFirst(ps);
    }
  }

  lemma NotEmpty(p: Piece)
    ensures TextOk(p) ==> SpellOne(p) != ""
  {}

  lemma ReadOne(path: string, pos: nat, p: Piece, rest: seq<Piece>, q: nat)
    requires var next := pos + |SpellOne(p)|;
             next <= q <= |path| && path[pos..next] == SpellOne(p) && path[next..q] == Spell(rest)
    requires TextOk(p) && (p.Bare? && p.dotted ==> pos > 0) && Follows(rest, false, p.Boxed?)
    requires q < |path| ==> IsSpecial(path[q])
    ensures From(path, pos) == Prepend(SegmentOf(p), From(path, pos + |SpellOne(p)|))
  {
    hide FromField, FromItems, FieldOrIndex, Field, Follows, Spell, TextOk;
    var next := pos + |SpellOne(p)|;
    if p.Boxed? {
      ReadBoxed(path, pos, p.text);
    } else {
      NameEnds(path, next, rest, q);
      if p.dotted {
        BareEither(p.text);
        ReadDotted(path, pos, p.text);
      } else {
        ReadBare(path, pos, p.text);
      }
    }
  }

  lemma BareEither(t: string)
    ensures TextOk(Bare(t, true)) == TextOk(Bare(t, false))
  {}

  lemma NameEnds(path: string, next: nat, rest: seq<Piece>, q: nat)
    requires next <= q <= |path| && path[next..q] == Spell(rest) && Follows(rest, false, false)
    requires q < |path| ==> IsSpecial(path[q])
    ensures next < |path| ==> IsSpecial(path[next])
  {
    if rest != [] {
      SpellStart(rest);
      assert path[next] == path[next..q][0];
    }
  }

  /** Where no piece starts the parser reports an error, and where it does. */
  lemma BlockedFails(path: string, q: nat, p: nat)
    requires Blocked(path, q, p)
    ensures From(path, q) == Unexpected(p)
  {
    hide FromField, FromItems;
    FieldEndAt(path, q, q);
    if path[q] == ']' {
      StrayBracket(path, q);
    } else if path[q] == '.' {
      BlockedPeriod(path, q, p);
    } else {
      BlockedBracket(path, q, p);
    }
  }

  lemma BlockedPeriod(path: string, q: nat, p: nat)
    requires Blocked(path, q, p) && path[q] == '.'
    ensures From(path, q) == Unexpected(p)
  {
    hide FromField;
    FromFieldAtSeparator(path, q);
    if 0 < q < |path| - 1 {
      if path[q + 1] == ']' {
        FieldEndAt(path, q + 1, q + 1);
        StrayBracket(path, q + 1);
        assert FromPeriod(path, q)[1..] == FromField(path, q + 1);
      } else {
        assert FromPeriod(path, q)[1..] == [Error(q + 1)];
        assert FromItems([Error(q + 1)]) == Unexpected(q + 1);
      }
    }
  }

  lemma BlockedBracket(path: string, q: nat, p: nat)
    requires Blocked(path, q, p) && path[q] == '['
    ensures From(path, q) == Unexpected(p)
  {
    hide FromField, FieldEnd, IndexOf, FromFieldOrIndex;
    FromFieldAtSeparator(path, q);
    if IndexOf(path, ']', q) < |path| {
      assert path[IndexOf(path, ']', q)] == ']';
      assert FromLeftBracket(path, q)[1..] == FromFieldOrIndex(path, q + 1);
      BlockedBetween(path, q, p);
      assert FromItems([Error(p)]) == Unexpected(p);
    }
  }

  lemma BlockedBetween(path: string, q: nat, p: nat)
    requires q < p < |path| && IndexOf(path, ']', q + 1) < |path|
    requires forall k :: q < k < p ==> path[k] != '[' && path[k] != ']'
    requires path[p] == '[' || (path[p] == ']' && p == q + 1)
    ensures FromFieldOrIndex(path, q + 1) == [Error(p)]
  {
    hide FromRightBracket, IndexOf;
    if path[p] == '[' { IndexOfAt(path, '[', q + 1, p); } else { IndexOfAt(path, ']', q + 1, p); }
  }

  // ---- every path is read ----

  /** Every text has pieces up to its end, or up to where no piece starts. */
  lemma {:induction false} Scan(path: string, pos: nat, boxed: bool) returns (ps: seq<Piece>, q: nat)
    requires pos <= |path| && (pos == 0 || boxed || pos == |path| || IsSpecial(path[pos]))
    ensures pos <= q <= |path| && path[pos..q] == Spell(ps) && Follows(ps, pos == 0, boxed)
    ensures q < |path| ==> exists p :: Blocked(path, q, p)
    decreases |path| - pos
  {
    hide Spell, Follows;
    if pos < |path| {
      var p, next := ScanOne(path, pos, boxed);
      if next == pos {
        ps, q := [], pos;
        NoPieces(pos == 0, boxed);
      } else {
        ps, q := Scan(path, next, p.Boxed?);
        OneMore(p, ps, pos == 0, boxed);
        assert path[pos..q] == path[pos..next] + path[next..q];
        ps := [p] + ps;
      }
    } else {
      ps, q := [], pos;
      NoPieces(pos == 0, boxed);
    }
  }

  lemma NoPieces(first: bool, boxed: bool)
    ensures Spell([]) == "" && Follows([], first, boxed)
  {}

  lemma OneMore(p: Piece, ps: seq<Piece>, first: bool, boxed: bool)
    ensures Spell([p] + ps) == SpellOne(p) + Spell(ps)
    ensures TextOk(p) && (p.Bare? ==> if p.dotted then !first else first || boxed) && Follows(ps, false, p.Boxed?) ==>
              Follows([p] + ps, first, boxed)
  {
    assert ([p] + ps)[1..] == ps;
  }

  /** The piece at `pos`, if there is one. */
  lemma ScanOne(path: string, pos: nat, boxed: bool) returns (p: Piece, next: nat)
    requires pos < |path| && (pos == 0 || boxed || IsSpecial(path[pos]))
    ensures pos <= next <= |path|
    ensures if next == pos then exists at :: Blocked(path, pos, at)
            else
              && TextOk(p) && (p.Bare? ==> if p.dotted then pos > 0 else pos == 0 || boxed)
              && path[pos..next] == SpellOne(p)
              && (p.Boxed? || next == |path| || IsSpecial(path[next]))
  {
    if path[pos] == '[' {
      p, next := ScanBoxed(path, pos);
    } else if path[pos] == ']' {
      assert Blocked(path, pos, pos);
      p, next := Boxed("x"), pos;
    } else if path[pos] == '.' {
      p, next := ScanDotted(path, pos);
    } else {
      next := FieldEnd(path, pos);
      p := Bare(path[pos..next], false);
      BareText(path, pos, next, false);
    }
  }

  lemma BareText(path: string, pos: nat, next: nat, dotted: bool)
    requires pos < next <= |path| && forall k :: pos <= k < next ==> !IsSpecial(path[k])
    ensures TextOk(Bare(path[pos..next], dotted))
  {
    forall c | c in path[pos..next] ensures !IsSpecial(c) {}
  }

  lemma ScanDotted(path: string, pos: nat) returns (p: Piece, next: nat)
    requires pos < |path| && path[pos] == '.'
    ensures pos <= next <= |path|
    ensures if next == pos then exists at :: Blocked(path, pos, at)
            else
              && TextOk(p) && p.Bare? && p.dotted && pos > 0 && path[pos..next] == SpellOne(p)
              && (next == |path| || IsSpecial(path[next]))
  {
    p, next := Boxed("x"), pos;
    if pos == 0 || pos == |path| - 1 {
      assert Blocked(path, pos, pos);
    } else if IsSpecial(path[pos + 1]) {
      assert Blocked(path, pos, pos + 1);
    } else {
      next := FieldEnd(path, pos + 1);
      p := Bare(path[pos + 1..next], true);
      BareText(path, pos + 1, next, true);
      assert path[pos..next] == "." + path[pos + 1..next];
    }
  }

  lemma ScanBoxed(path: string, pos: nat) returns (p: Piece, next: nat)
    requires pos < |path| && path[pos] == '['
    ensures pos <= next <= |path|
    ensures if next == pos then exists at :: Blocked(path, pos, at)
            else TextOk(p) && p.Boxed? && path[pos..next] == SpellOne(p)
  {
    hide IndexOf;
    p, next := Boxed("x"), pos;
    var rb := IndexOf(path, ']', pos + 1);
    var lb := IndexOf(path, '[', pos + 1);
    if rb == |path| {
      assert Blocked(path, pos, pos);
    } else if rb == pos + 1 {
      assert path[rb] == ']';
      assert Blocked(path, pos, rb);
    } else if lb < rb {
      assert path[rb] == ']';
      assert Blocked(path, pos, lb);
    } else {
      p, next := Boxed(path[pos + 1..rb]), rb + 1;
      assert path[pos..next] == "[" + path[pos + 1..rb] + "]";
    }
  }

  // ---- the parser and the grammar ----

  /** Parsing a path gives what the grammar says it stands for: its segments where
      it is accepted, one for each piece and in order, and otherwise the position
      of the error. */
  lemma ParsesExactly(path: string, r: Parsed)
    ensures Parse(path) == r <==> Denotes(path, r)
  {
    hide FromField, FromItems, MeanAll, SegmentsOf, Follows, Spell, Blocked;
    if Denotes(path, r) { DenotesIsParsed(path, r); }
    if Parse(path) == r {
      var ps, q := Scan(path, 0, false);
      ReadPieces(path, 0, ps, false, q) by {
        if q < |path| {
          var p :| Blocked(path, q, p);
          BlockedIsSpecial(path, q, p);
        }
      }
      assert path[0..q] == path[..q];
      if q == |path| {
        AtEnd(path);
        SegmentsMean(ps, SegmentsOf(ps));
        assert SegmentsOf(ps) + [] == SegmentsOf(ps);
        assert r == Ok(SegmentsOf(ps)) && WellFormed(ps) && Spell(ps) == path;
      } else {
        var p :| Blocked(path, q, p);
        BlockedFails(path, q, p);
        assert Spell(ps) <= path && Blocked(path, |Spell(ps)|, p);
      }
    }
  }

  lemma BlockedIsSpecial(path: string, q: nat, p: nat)
    requires Blocked(path, q, p)
    ensures q < |path| && IsSpecial(path[q])
  {}

  lemma DenotesIsParsed(path: string, r: Parsed)
    requires Denotes(path, r)
    ensures Parse(path) == r
  {
    hide FromField, FromItems, MeanAll, SegmentsOf, Follows, Spell, Blocked;
    match r
    case Ok(sg) =>
      var ps :| WellFormed(ps) && Spell(ps) == path && MeanAll(ps, sg);
      assert path[0..|path|] == path;
      ReadPieces(path, 0, ps, false, |path|);
      AtEnd(path);
      SegmentsMean(ps, sg);
    case Unexpected(p) =>
      var ps :| WellFormed(ps) && Spell(ps) <= path && Blocked(path, |Spell(ps)|, p);
      BlockedIsSpecial(path, |Spell(ps)|, p);
      ReadPieces(path, 0, ps, false, |Spell(ps)|);
      BlockedFails(path, |Spell(ps)|, p);
  }

  // ---- the printer ----

  /** An index, the wildcard and a name with a period are printed in brackets, every
      other name bare, and with a period before it unless it is first. */
  function PieceFor(s: Segment, first: bool): Piece {
    match s
    case IndexSegment(i) => Boxed(Itoa(i))
    case FieldSegment(f) => if f == "*" || '.' in f then Boxed(f) else Bare(f, !first)
  }

  function PiecesFor(sg: Segments, first: bool): seq<Piece> {
    if sg == [] then [] else [PieceFor(sg[0], first)] + PiecesFor(sg[1..], false)
  }

  lemma {:induction false} PrintAllSpells(sg: Segments)
    ensures PrintAll(sg) == Spell(PiecesFor(sg, false))
  {
    if sg != [] {
      PrintAllSpells(sg[1..]);
      OneMore(PieceFor(sg[0], false), PiecesFor(sg[1..], false), false, false);
    }
  }

  /** What is printed, piece by piece. */
  lemma PrintSpells(sg: Segments)
    ensures Print(sg) == Spell(PiecesFor(sg, true))
  {
    hide Spell, PrintAll;
    PrintAllSpells(sg);
    if sg == [] {
      NoPieces(true, false);
    } else {
      var rest := PiecesFor(sg[1..], false);
      OneMore(PieceFor(sg[0], true), rest, true, false);
      OneMore(PieceFor(sg[0], false), rest, true, false);
    }
  }
}
