/** Field paths: the lexer, the parser and the printer of `pkg/fieldpath/fieldpath.go`.

The functions say which items and which segments a path stands for; the class
`Lexer` and the methods `ParsePath` and `SegmentsString` are the program's loops,
proved to compute those functions.
 */
module FieldPath {
  import opened Text

  // ---- segments ----

  datatype Segment = FieldSegment(field: string) | IndexSegment(index: nat)

  type Segments = seq<Segment>

  const WILDCARD := "*"

  /** Always a field; outer quotes are removed. */
  function Field(s: string): Segment {
    FieldSegment(Trim(s))
  }

  /** An index if `s` is an unsigned 32 bit numeral, otherwise a field. */
  function FieldOrIndex(s: string): Segment {
    match ParseUint32(s)
    case Some(i) => IndexSegment(i)
    case None => Field(s)
  }

  // ---- printing ----

  function PrintSegment(s: Segment): string {
    match s
    case FieldSegment(f) => if f == WILDCARD || '.' in f then "[" + f + "]" else "." + f
    case IndexSegment(i) => "[" + Itoa(i) + "]"
  }

  function PrintAll(sg: Segments): string {
    if sg == [] then "" else PrintSegment(sg[0]) + PrintAll(sg[1..])
  }

  function TrimPeriod(s: string): string {
    if s != "" && s[0] == '.' then s[1..] else s
  }

  /** What `Segments.String` returns. */
  function Print(sg: Segments): string {
    TrimPeriod(PrintAll(sg))
  }

  lemma PrintAllFirst(s: Segment, more: Segments)
    ensures PrintAll([s] + more) == PrintSegment(s) + PrintAll(more)
  {
    hide PrintSegment;
    assert ([s] + more)[1..] == more;
  }

  lemma Associates(a: string, b: string, c: string)
    ensures a + (b + c) == (a + b) + c
  {}

  lemma {:induction false} PrintAllSnoc(sg: Segments, s: Segment)
    ensures PrintAll(sg + [s]) == PrintAll(sg) + PrintSegment(s)
  {
    hide PrintSegment, PrintAll;
    if sg == [] {
      PrintAllFirst(s, []);
      PrintNothing();
      assert [] + [s] == [s] + [];
    } else {
      var first, rest := sg[0], sg[1..];
      assert sg == [first] + rest && sg + [s] == [first] + (rest + [s]);
      PrintAllFirst(first, rest);
      PrintAllFirst(first, rest + [s]);
      PrintAllSnoc(rest, s);
      Associates(PrintSegment(first), PrintAll(rest), PrintSegment(s));
    }
  }

  lemma PrintNothing()
    ensures PrintAll([]) == ""
  {}

  method SegmentsString(sg: Segments) returns (r: string)
    ensures r == Print(sg)
  {
    var b := "";
    for i := 0 to |sg|
      invariant b == PrintAll(sg[..i])
    {
      var s := sg[i];
      ghost var before := b;
      match s {
        case FieldSegment(f) =>
          if f == WILDCARD || '.' in f {
            b := b + ("[" + f + "]");
          } else {
            b := b + ("." + f);
          }
        case IndexSegment(n) => b := b + ("[" + Itoa(n) + "]");
      }
      assert sg[..i + 1] == sg[..i] + [s];
      PrintAllSnoc(sg[..i], s);
    }
    assert sg[..|sg|] == sg;
    r := if b != "" && b[0] == '.' then b[1..] else b;
  }

  // ---- items ----

  datatype ItemType = PeriodItem | LeftBracketItem | RightBracketItem | FieldItem | FieldOrIndexItem

  /** An item the lexer emits. Error texts are not modelled, only their position. */
  datatype Item = Token(typ: ItemType, pos: nat, val: string) | Error(pos: nat)

  predicate IsSpecial(c: char) {
    c == '.' || c == '[' || c == ']'
  }

  /** The end of the field name that starts at `from`. */
  function FieldEnd(s: string, from: nat): (i: nat)
    requires from <= |s|
    ensures from <= i <= |s|
    ensures i < |s| ==> IsSpecial(s[i])
    ensures forall k :: from <= k < i ==> !IsSpecial(s[k])
    decreases |s| - from
  {
    if from == |s| || IsSpecial(s[from]) then from else FieldEnd(s, from + 1)
  }

  /** Empty values are not emitted. */
  function Emitted(t: ItemType, input: string, start: nat, pos: nat): seq<Item>
    requires start <= pos <= |input|
  {
    if pos <= start then [] else [Token(t, start, input[start..pos])]
  }

  // The items that remain to be emitted, one function for each state of the lexer.

  function FromField(input: string, pos: nat): seq<Item>
    requires pos <= |input|
    decreases |input| - pos, 4
  {
    var i := FieldEnd(input, pos);
    if i == |input| then Emitted(FieldItem, input, pos, i)
    else if input[i] == ']' then [Error(i)]
    else if input[i] == '[' then Emitted(FieldItem, input, pos, i) + FromLeftBracket(input, i)
    else Emitted(FieldItem, input, pos, i) + FromPeriod(input, i)
  }

  function FromPeriod(input: string, pos: nat): seq<Item>
    requires pos < |input| && input[pos] == '.'
    decreases |input| - pos, 3
  {
    if pos == 0 || pos == |input| - 1 then [Error(pos)]
    else if input[pos + 1] == '.' || input[pos + 1] == '[' then [Token(PeriodItem, pos, "."), Error(pos + 1)]
    else [Token(PeriodItem, pos, ".")] + FromField(input, pos + 1)
  }

  function FromLeftBracket(input: string, pos: nat): seq<Item>
    requires pos < |input| && input[pos] == '['
    decreases |input| - pos, 3
  {
    if IndexOf(input, ']', pos) == |input| then [Error(pos)]
    else [Token(LeftBracketItem, pos, "[")] + FromFieldOrIndex(input, pos + 1)
  }

  function FromFieldOrIndex(input: string, pos: nat): seq<Item>
    requires pos <= |input| && IndexOf(input, ']', pos) < |input|
    decreases |input| - pos, 2
  {
    var rb := IndexOf(input, ']', pos);
    var lb := IndexOf(input, '[', pos);
    if rb == pos then [Error(pos)]
    else if lb < rb then [Error(lb)]
    else [Token(FieldOrIndexItem, pos, input[pos..rb])] + FromRightBracket(input, rb)
  }

  function FromRightBracket(input: string, pos: nat): seq<Item>
    requires pos < |input| && input[pos] == ']'
    decreases |input| - pos, 1
  {
    [Token(RightBracketItem, pos, "]")] + FromField(input, pos + 1)
  }

  function Lex(input: string): seq<Item> {
    FromField(input, 0)
  }

  // ---- the lexer ----

  datatype State = LexField | LexPeriod | LexLeftBracket | LexFieldOrIndex | LexRightBracket | Stop

  /** Where the lexer may be when it is in a given state. */
  predicate StateAt(input: string, state: State, pos: nat) {
    match state
    case LexField => pos <= |input|
    case LexPeriod => pos < |input| && input[pos] == '.'
    case LexLeftBracket => pos < |input| && input[pos] == '['
    case LexFieldOrIndex => pos <= |input| && IndexOf(input, ']', pos) < |input|
    case LexRightBracket => pos < |input| && input[pos] == ']'
    case Stop => pos <= |input|
  }

  function Remaining(input: string, state: State, pos: nat): seq<Item>
    requires StateAt(input, state, pos)
  {
    match state
    case LexField => FromField(input, pos)
    case LexPeriod => FromPeriod(input, pos)
    case LexLeftBracket => FromLeftBracket(input, pos)
    case LexFieldOrIndex => FromFieldOrIndex(input, pos)
    case LexRightBracket => FromRightBracket(input, pos)
    case Stop => []
  }

  /** Every state function consumes input or moves to a lower stage. */
  function Stage(state: State): nat {
    match state
    case LexField => 4
    case LexPeriod => 3
    case LexLeftBracket => 3
    case LexFieldOrIndex => 2
    case LexRightBracket => 1
    case Stop => 0
  }

  lemma Join(before: seq<Item>, item: Item, after: seq<Item>)
    ensures before + ([item] + after) == (before + [item]) + after
  {}

  class Lexer {
    const input: string
    var pos: nat
    var start: nat
    var items: seq<Item>

    constructor (path: string)
      ensures input == path && pos == 0 && start == 0 && items == []
    {
      input := path;
      pos := 0;
      start := 0;
      items := [];
    }

    /** The lexer is between two state functions and about to run `state`. */
    ghost predicate Ready(state: State)
      reads this
    {
      StateAt(input, state, pos) && (state != Stop ==> start == pos)
    }

    /** Running `state` and then `next` emits what `state` alone stands for. */
    twostate predicate Stepped(state: State, next: State)
      reads this
    {
      && old(Ready(state))
      && Ready(next)
      && items + Remaining(input, next, pos) == old(items) + Remaining(input, state, old(pos))
      && old(pos) <= pos
      && (next == Stop || old(pos) < pos || Stage(next) < Stage(state))
    }

    method Emit(t: ItemType)
      requires start <= pos <= |input|
      modifies `items, `start
      ensures items == old(items) + Emitted(t, input, old(start), pos)
      ensures start == pos
    {
      if pos <= start { return; }
      items := items + [Token(t, start, input[start..pos])];
      start := pos;
    }

    method Errorf(at: nat)
      modifies `items
      ensures items == old(items) + [Error(at)]
    {
      items := items + [Error(at)];
    }

    method RunField() returns (next: State)
      requires Ready(LexField)
      modifies this
      ensures Stepped(LexField, next)
    {
      var i := pos;
      while i < |input| && !IsSpecial(input[i])
        invariant pos <= i <= |input|
        invariant FieldEnd(input, pos) == FieldEnd(input, i)
      {
        i := i + 1;
      }
      if i == |input| {
        pos := |input|;
        Emit(FieldItem);
        return Stop;
      }
      if input[i] == ']' {
        Errorf(i);
        return Stop;
      }
      pos := i;
      Emit(FieldItem);
      next := if input[i] == '[' then LexLeftBracket else LexPeriod;
    }

    method RunPeriod() returns (next: State)
      requires Ready(LexPeriod)
      modifies this
      ensures Stepped(LexPeriod, next)
    {
      if pos == 0 || pos == |input| - 1 {
        Errorf(pos);
        return Stop;
      }
      pos := pos + 1;
      Emit(PeriodItem);
      assert input[pos - 1..pos] == ".";
      var r := input[pos];
      if r == '.' || r == '[' {
        Errorf(pos);
        assert items == old(items) + [Token(PeriodItem, pos - 1, "."), Error(pos)];
        return Stop;
      }
      Join(old(items), Token(PeriodItem, pos - 1, "."), FromField(input, pos));
      return LexField;
    }

    method RunLeftBracket() returns (next: State)
      requires Ready(LexLeftBracket)
      modifies this
      ensures Stepped(LexLeftBracket, next)
    {
      if IndexOf(input, ']', pos) == |input| {
        Errorf(pos);
        return Stop;
      }
      pos := pos + 1;
      Emit(LeftBracketItem);
      assert input[pos - 1..pos] == "[";
      Join(old(items), Token(LeftBracketItem, pos - 1, "["), FromFieldOrIndex(input, pos));
      return LexFieldOrIndex;
    }

    method RunFieldOrIndex() returns (next: State)
      requires Ready(LexFieldOrIndex)
      modifies this
      ensures Stepped(LexFieldOrIndex, next)
    {
      var rb := IndexOf(input, ']', pos);
      if rb == pos {
        Errorf(pos);
        return Stop;
      }
      var lb := IndexOf(input, '[', pos);
      if lb < rb {
        Errorf(lb);
        return Stop;
      }
      pos := rb;
      Emit(FieldOrIndexItem);
      Join(old(items), Token(FieldOrIndexItem, old(pos), input[old(pos)..rb]), FromRightBracket(input, rb));
      return LexRightBracket;
    }

    method RunRightBracket() returns (next: State)
      requires Ready(LexRightBracket)
      modifies this
      ensures Stepped(LexRightBracket, next)
    {
      pos := pos + 1;
      Emit(RightBracketItem);
      assert input[pos - 1..pos] == "]";
      Join(old(items), Token(RightBracketItem, pos - 1, "]"), FromField(input, pos));
      return LexField;
    }

    /** Lexing always ends, and emits the items `Lex` lists. */
    method Run()
      requires pos == 0 && start == 0 && items == []
      modifies this
      ensures items == Lex(input)
    {
      var state := LexField;
      while state != Stop
        invariant Ready(state)
        invariant items + Remaining(input, state, pos) == Lex(input)
        decreases state != Stop, |input| - pos, Stage(state)
      {
        match state {
          case LexField => state := RunField();
          case LexPeriod => state := RunPeriod();
          case LexLeftBracket => state := RunLeftBracket();
          case LexFieldOrIndex => state := RunFieldOrIndex();
          case LexRightBracket => state := RunRightBracket();
        }
      }
    }
  }

  // ---- parsing ----

  datatype Parsed = Ok(segments: Segments) | Unexpected(pos: nat)

  function Prepend(s: Segment, p: Parsed): Parsed {
    match p
    case Ok(segments) => Ok([s] + segments)
    case Unexpected(_) => p
  }

  function FromItems(items: seq<Item>): Parsed {
    if items == [] then Ok([])
    else match items[0]
      case Error(pos) => Unexpected(pos)
      case Token(typ, _, val) =>
        if typ == FieldItem then Prepend(Field(val), FromItems(items[1..]))
        else if typ == FieldOrIndexItem then Prepend(FieldOrIndex(val), FromItems(items[1..]))
        else FromItems(items[1..])
  }

  /** What a path means. */
  function Parse(path: string): Parsed {
    FromItems(Lex(path))
  }

  function Append(segments: Segments, p: Parsed): Parsed {
    match p
    case Ok(more) => Ok(segments + more)
    case Unexpected(_) => p
  }

  method ParsePath(path: string) returns (r: Parsed)
    ensures r == Parse(path)
  {
    var l := new Lexer(path);
    l.Run();
    var segments: Segments := [];
    var k := 0;
    while k < |l.items|
      invariant 0 <= k <= |l.items|
      invariant Parse(path) == Append(segments, FromItems(l.items[k..]))
    {
      ghost var rest := l.items[k..];
      assert rest[0] == l.items[k] && rest[1..] == l.items[k + 1..];
      match l.items[k] {
        case Error(pos) => return Unexpected(pos);
        case Token(typ, _, val) =>
          if typ == FieldItem {
            segments := segments + [Field(val)];
          } else if typ == FieldOrIndexItem {
            segments := segments + [FieldOrIndex(val)];
          }
      }
      k := k + 1;
    }
    r := Ok(segments);
  }

  // ---- items tile the input ----

  /** `items` cut `input[from..to]` into consecutive pieces, each at its offset. */
  predicate Tiles(items: seq<Item>, input: string, from: nat, to: nat) {
    && from <= to <= |input|
    && if items == [] then from == to
       else
         && items[0].Token? && items[0].pos == from && items[0].val != ""
         && from + |items[0].val| <= to
         && items[0].val == input[from..from + |items[0].val|]
         && Tiles(items[1..], input, from + |items[0].val|, to)
  }

  /** Either the items tile the whole rest of the input, or they tile a part of
      it up to some `to`, followed by one error at a position inside the input
      that no emitted item covers. */
  ghost predicate TilesOrFails(items: seq<Item>, input: string, from: nat) {
    || Tiles(items, input, from, |input|)
    || (&& items != []
        && items[|items| - 1].Error?
        && exists to: nat {:trigger Tiles(items[..|items| - 1], input, from, to)} ::
             Tiles(items[..|items| - 1], input, from, to) && to <= items[|items| - 1].pos < |input|)
  }

  lemma TilesCons(item: Item, items: seq<Item>, input: string, from: nat)
    requires from <= |input| && item.Token? && item.pos == from && item.val != ""
    requires from + |item.val| <= |input| && item.val == input[from..from + |item.val|]
    requires TilesOrFails(items, input, from + |item.val|)
    ensures TilesOrFails([item] + items, input, from)
  {
    var all := [item] + items;
    assert all[1..] == items;
    if !Tiles(items, input, from + |item.val|, |input|) {
      var body := items[..|items| - 1];
      var to: nat :| Tiles(body, input, from + |item.val|, to) && to <= items[|items| - 1].pos < |input|;
      assert all[..|all| - 1] == [item] + body;
      assert ([item] + body)[1..] == body;
      assert Tiles(all[..|all| - 1], input, from, to);
    }
  }

  lemma FailsHere(input: string, from: nat, pos: nat)
    requires from <= pos < |input|
    ensures TilesOrFails([Error(pos)], input, from)
  {
    var items := [Error(pos)];
    assert items[..0] == [];
    assert Tiles(items[..|items| - 1], input, from, from);
  }

  lemma {:induction false} TilesFromField(input: string, pos: nat)
    requires pos <= |input|
    ensures TilesOrFails(FromField(input, pos), input, pos)
    decreases |input| - pos, 4
  {
    var i := FieldEnd(input, pos);
    if i == |input| {
      if pos < i { assert [Token(FieldItem, pos, input[pos..i])][1..] == []; }
      assert Tiles(FromField(input, pos), input, pos, |input|);
    } else if input[i] == ']' {
      FailsHere(input, pos, i);
    } else {
      var rest := if input[i] == '[' then FromLeftBracket(input, i) else FromPeriod(input, i);
      if input[i] == '[' { TilesFromLeftBracket(input, i); } else { TilesFromPeriod(input, i); }
      if pos < i {
        TilesCons(Token(FieldItem, pos, input[pos..i]), rest, input, pos);
      } else {
        assert [] + rest == rest;
      }
    }
  }

  lemma {:induction false} TilesFromPeriod(input: string, pos: nat)
    requires pos < |input| && input[pos] == '.'
    ensures TilesOrFails(FromPeriod(input, pos), input, pos)
    decreases |input| - pos, 3
  {
    var period := Token(PeriodItem, pos, ".");
    assert input[pos..pos + 1] == ".";
    if pos == 0 || pos == |input| - 1 {
      FailsHere(input, pos, pos);
    } else if input[pos + 1] == '.' || input[pos + 1] == '[' {
      FailsHere(input, pos + 1, pos + 1);
      TilesCons(period, [Error(pos + 1)], input, pos);
      assert [period] + [Error(pos + 1)] == FromPeriod(input, pos);
    } else {
      TilesFromField(input, pos + 1);
      TilesCons(period, FromField(input, pos + 1), input, pos);
    }
  }

  lemma {:induction false} TilesFromLeftBracket(input: string, pos: nat)
    requires pos < |input| && input[pos] == '['
    ensures TilesOrFails(FromLeftBracket(input, pos), input, pos)
    decreases |input| - pos, 3
  {
    var rb := IndexOf(input, ']', pos);
    if rb == |input| {
      FailsHere(input, pos, pos);
      return;
    }
    assert input[pos..pos + 1] == "[";
    TilesFromFieldOrIndex(input, pos + 1);
    TilesCons(Token(LeftBracketItem, pos, "["), FromFieldOrIndex(input, pos + 1), input, pos);
  }

  lemma {:induction false} TilesFromFieldOrIndex(input: string, pos: nat)
    requires pos <= |input| && IndexOf(input, ']', pos) < |input|
    ensures TilesOrFails(FromFieldOrIndex(input, pos), input, pos)
    decreases |input| - pos, 2
  {
    hide TilesOrFails, FromField, FromRightBracket;
    var rb := IndexOf(input, ']', pos);
    var lb := IndexOf(input, '[', pos);
    if rb == pos {
      FailsHere(input, pos, pos);
    } else if lb < rb {
      FailsHere(input, pos, lb);
    } else {
      TilesFromField(input, rb + 1);
      TilesBetweenBrackets(input, pos, rb);
    }
  }

  lemma TilesBetweenBrackets(input: string, pos: nat, rb: nat)
    requires pos < rb < |input| && input[rb] == ']' && TilesOrFails(FromField(input, rb + 1), input, rb + 1)
    ensures TilesOrFails([Token(FieldOrIndexItem, pos, input[pos..rb])] + FromRightBracket(input, rb), input, pos)
  {
    hide FromField, TilesOrFails;
    assert input[rb..rb + 1] == "]";
    TilesCons(Token(RightBracketItem, rb, "]"), FromField(input, rb + 1), input, rb);
    TilesCons(Token(FieldOrIndexItem, pos, input[pos..rb]), FromRightBracket(input, rb), input, pos);
  }

  /** Accepted input is tiled completely; otherwise a prefix is tiled, the error
      comes last and points into the input, at or after the end of that prefix. */
  lemma LexTiles(input: string)
    ensures TilesOrFails(Lex(input), input, 0)
  {
    TilesFromField(input, 0);
  }

  // ---- the printer and the parser are inverse ----

  predicate BracketFree(s: string) {
    '[' !in s && ']' !in s
  }

  /** A field the printer can write so that the parser reads it back. */
  predicate PlainField(f: string) {
    f != "" && BracketFree(f) && Unquoted(f)
  }

  predicate Printable(s: Segment) {
    match s
    case FieldSegment(f) => PlainField(f)
    case IndexSegment(i) => i < UINT32_LIMIT
  }

  predicate AllPrintable(sg: Segments) {
    forall i :: 0 <= i < |sg| ==> Printable(sg[i])
  }

  predicate PlainOrEmpty(s: Segment) {
    match s
    case FieldSegment(f) => BracketFree(f) && Unquoted(f)
    case IndexSegment(i) => i < UINT32_LIMIT
  }

  predicate AllPlainOrEmpty(sg: Segments) {
    forall i :: 0 <= i < |sg| ==> PlainOrEmpty(sg[i])
  }

  predicate NoEmptyField(sg: Segments) {
    forall i :: 0 <= i < |sg| ==> sg[i] != FieldSegment("")
  }

  /** The text between brackets for the segments printed with brackets. */
  function Bracketed(s: Segment): string {
    match s
    case FieldSegment(f) => f
    case IndexSegment(i) => Itoa(i)
  }

  predicate InBrackets(s: Segment) {
    s.IndexSegment? || s.field == WILDCARD || '.' in s.field
  }

  lemma BracketedReadsBack(s: Segment)
    requires Printable(s) && InBrackets(s)
    ensures BracketFree(Bracketed(s)) && Bracketed(s) != "" && FieldOrIndex(Bracketed(s)) == s
    ensures PrintSegment(s) == "[" + Bracketed(s) + "]"
  {
    match s
    case IndexSegment(i) => ItoaDigits(i);
    case FieldSegment(f) => TrimFacts(f);
  }

  /** At a separator the field state emits nothing and hands over. */
  lemma FromFieldAtSeparator(input: string, pos: nat)
    requires pos < |input| && (input[pos] == '.' || input[pos] == '[')
    ensures FromField(input, pos) == if input[pos] == '[' then FromLeftBracket(input, pos) else FromPeriod(input, pos)
  {
    assert FieldEnd(input, pos) == pos;
  }

  lemma {:induction false} FieldEndAt(input: string, pos: nat, end: nat)
    requires pos <= end <= |input|
    requires forall k :: pos <= k < end ==> !IsSpecial(input[k])
    requires end < |input| ==> IsSpecial(input[end])
    ensures FieldEnd(input, pos) == end
    decreases end - pos
  {
    if pos < end { FieldEndAt(input, pos + 1, end); }
  }

  lemma {:induction false} IndexOfAt(input: string, c: char, pos: nat, at: nat)
    requires pos <= at < |input| && input[at] == c
    requires forall k :: pos <= k < at ==> input[k] != c
    ensures IndexOf(input, c, pos) == at
    decreases at - pos
  {
    if pos < at { IndexOfAt(input, c, pos + 1, at); }
  }

  lemma PrintAllStart(sg: Segments)
    requires sg != []
    ensures PrintAll(sg) != "" && (PrintAll(sg)[0] == '.' || PrintAll(sg)[0] == '[')
  {}

  /** The text that starts at `pos` splits where its first part ends. */
  lemma Split(input: string, pos: nat, t: string, rest: string)
    requires pos <= |input| && input[pos..] == t + rest
    ensures pos + |t| <= |input|
    ensures input[pos..pos + |t|] == t && input[pos + |t|..] == rest
    ensures forall k :: 0 <= k < |t| ==> input[pos + k] == t[k]
    ensures forall k :: pos <= k < pos + |t| ==> input[k] == t[k - pos]
    ensures rest != "" ==> pos + |t| < |input| && input[pos + |t|] == rest[0]
  {
    var tail := input[pos..];
    assert tail[..|t|] == t && tail[|t|..] == rest;
    assert forall k :: 0 <= k < |t| ==> tail[k] == t[k];
  }

  /** What brackets around a bracket-free text are lexed into. */
  lemma BracketItems(input: string, pos: nat, rb: nat)
    requires pos + 1 < rb < |input| && input[pos] == '[' && input[rb] == ']'
    requires forall k :: pos < k < rb ==> input[k] != '[' && input[k] != ']'
    ensures FromField(input, pos) ==
            [Token(LeftBracketItem, pos, "["), Token(FieldOrIndexItem, pos + 1, input[pos + 1..rb]),
             Token(RightBracketItem, rb, "]")] + FromField(input, rb + 1)
  {
    hide FromField, FromLeftBracket, FromFieldOrIndex;
    FromFieldAtSeparator(input, pos);
    LeftBracketItems(input, pos, rb);
    BetweenItems(input, pos + 1, rb);
    ThreeThenMore(Token(LeftBracketItem, pos, "["), Token(FieldOrIndexItem, pos + 1, input[pos + 1..rb]),
                  Token(RightBracketItem, rb, "]"), FromField(input, rb + 1));
  }

  lemma ThreeThenMore(a: Item, b: Item, c: Item, more: seq<Item>)
    ensures [a] + ([b] + ([c] + more)) == [a, b, c] + more
  {
    assert [b] + ([c] + more) == [b, c] + more;
  }

  lemma LeftBracketItems(input: string, pos: nat, rb: nat)
    requires pos < rb < |input| && input[pos] == '[' && input[rb] == ']'
    requires forall k :: pos < k < rb ==> input[k] != ']'
    ensures IndexOf(input, ']', pos + 1) < |input|
    ensures FromLeftBracket(input, pos) == [Token(LeftBracketItem, pos, "[")] + FromFieldOrIndex(input, pos + 1)
  {
    hide FromField, FromFieldOrIndex, IndexOf;
    IndexOfAt(input, ']', pos, rb);
    IndexOfAt(input, ']', pos + 1, rb);
  }

  lemma BetweenItems(input: string, pos: nat, rb: nat)
    requires pos < rb < |input| && input[rb] == ']' && IndexOf(input, ']', pos) < |input|
    requires forall k :: pos <= k < rb ==> input[k] != '[' && input[k] != ']'
    ensures FromFieldOrIndex(input, pos) ==
            [Token(FieldOrIndexItem, pos, input[pos..rb])] + ([Token(RightBracketItem, rb, "]")] + FromField(input, rb + 1))
  {
    hide FromField, IndexOf;
    IndexOfAt(input, ']', pos, rb);
  }

  lemma FromBracketItems(pos: nat, t: string, rb: nat, items: seq<Item>)
    ensures FromItems([Token(LeftBracketItem, pos, "["), Token(FieldOrIndexItem, pos + 1, t),
                       Token(RightBracketItem, rb, "]")] + items) == Prepend(FieldOrIndex(t), FromItems(items))
  {
    var lb, f, r := Token(LeftBracketItem, pos, "["), Token(FieldOrIndexItem, pos + 1, t), Token(RightBracketItem, rb, "]");
    assert ([lb, f, r] + items)[1..] == [f, r] + items;
    assert ([f, r] + items)[1..] == [r] + items;
    assert ([r] + items)[1..] == items;
    assert FromItems([r] + items) == FromItems(items);
  }

  lemma SplitBrackets(input: string, pos: nat, t: string, rest: string)
    requires pos <= |input| && BracketFree(t) && t != ""
    requires input[pos..] == "[" + t + "]" + rest
    ensures var rb := pos + 1 + |t|;
            && rb < |input| && input[pos] == '[' && input[rb] == ']'
            && (forall k :: pos < k < rb ==> input[k] != '[' && input[k] != ']')
            && input[pos + 1..rb] == t
            && input[rb + 1..] == rest
  {
    assert "[" + t + "]" + rest == "[" + (t + ("]" + rest));
    Split(input, pos, "[", t + ("]" + rest));
    Split(input, pos + 1, t, "]" + rest);
    Split(input, pos + 1 + |t|, "]", rest);
  }

  /** A segment printed in brackets is lexed as one name and yields the segment. */
  lemma LexBracketed(input: string, pos: nat, s: Segment, rest: string)
    requires pos <= |input| && Printable(s) && InBrackets(s)
    requires input[pos..] == PrintSegment(s) + rest
    ensures pos + |Bracketed(s)| + 2 <= |input|
    ensures input[pos + |Bracketed(s)| + 2..] == rest
    ensures FromItems(FromField(input, pos)) == Prepend(s, FromItems(FromField(input, pos + |Bracketed(s)| + 2)))
  {
    hide *;
    BracketedReadsBack(s);
    var t := Bracketed(s);
    var rb := pos + 1 + |t|;
    SplitBrackets(input, pos, t, rest);
    BracketItems(input, pos, rb);
    FromBracketItems(pos, t, rb, FromField(input, rb + 1));
  }

  /** A bare field name is lexed as one item and yields the field. */
  lemma LexBare(input: string, pos: nat, f: string, more: Segments)
    requires pos <= |input| && PlainField(f) && '.' !in f
    requires input[pos..] == f + PrintAll(more)
    ensures pos + |f| <= |input|
    ensures input[pos + |f|..] == PrintAll(more)
    ensures FromItems(FromField(input, pos)) == Prepend(FieldSegment(f), FromItems(FromField(input, pos + |f|)))
  {
    hide *;
    var end := pos + |f|;
    Split(input, pos, f, PrintAll(more));
    if more != [] { PrintAllStart(more); }
    PrintAllEmpty(more);
    BareEnds(input, pos, f);
    FieldItems(input, pos, end);
    FieldOfPlain(f);
    FromFieldItem(pos, f, FromField(input, end));
  }

  /** A bare field ends where its text does. */
  lemma BareEnds(input: string, pos: nat, f: string)
    requires PlainField(f) && '.' !in f && pos + |f| <= |input| && input[pos..pos + |f|] == f
    requires pos + |f| < |input| ==> input[pos + |f|] == '.' || input[pos + |f|] == '['
    ensures f != "" && FieldEnd(input, pos) == pos + |f|
  {
    hide FieldEnd;
    forall k | pos <= k < pos + |f| ensures !IsSpecial(input[k]) { assert input[k] == f[k - pos] && f[k - pos] in f; }
    FieldEndAt(input, pos, pos + |f|);
  }

  lemma FieldOfPlain(f: string)
    requires PlainField(f)
    ensures Field(f) == FieldSegment(f)
  {
    TrimFacts(f);
  }

  lemma FieldItems(input: string, pos: nat, end: nat)
    requires pos < end <= |input| && FieldEnd(input, pos) == end
    requires end < |input| ==> input[end] != ']'
    ensures FromField(input, pos) == [Token(FieldItem, pos, input[pos..end])] + FromField(input, end)
  {
    if end < |input| { FromFieldAtSeparator(input, end); }
  }

  lemma FromFieldItem(pos: nat, f: string, items: seq<Item>)
    ensures FromItems([Token(FieldItem, pos, f)] + items) == Prepend(Field(f), FromItems(items))
  {
    assert ([Token(FieldItem, pos, f)] + items)[1..] == items;
  }

  /** What a period before a field name is lexed into. */
  lemma PeriodItems(input: string, pos: nat)
    requires 0 < pos < |input| - 1 && input[pos] == '.' && input[pos + 1] != '.' && input[pos + 1] != '['
    ensures FromItems(FromField(input, pos)) == FromItems(FromField(input, pos + 1))
  {
    FromFieldAtSeparator(input, pos);
    assert FromPeriod(input, pos)[1..] == FromField(input, pos + 1);
  }

  /** A period with no name after it is an error. */
  lemma LonePeriod(input: string, pos: nat)
    requires pos < |input| && input[pos] == '.'
    requires pos == 0 || pos == |input| - 1 || input[pos + 1] == '.' || input[pos + 1] == '['
    ensures FromItems(FromField(input, pos)).Unexpected?
  {
    FromFieldAtSeparator(input, pos);
    if 0 < pos < |input| - 1 {
      assert FromPeriod(input, pos)[1..] == [Error(pos + 1)];
    }
  }

  lemma AtEnd(input: string)
    ensures FromItems(FromField(input, |input|)) == Ok([])
  {}

  lemma LexDotted(input: string, pos: nat, f: string, more: Segments)
    requires 0 < pos <= |input| && (f != "" ==> PlainField(f) && '.' !in f)
    requires input[pos..] == "." + f + PrintAll(more)
    ensures f == "" ==> FromItems(FromField(input, pos)).Unexpected?
    ensures f != "" ==>
              && pos + 1 + |f| <= |input|
              && input[pos + 1 + |f|..] == PrintAll(more)
              && FromItems(FromField(input, pos)) == Prepend(FieldSegment(f), FromItems(FromField(input, pos + 1 + |f|)))
  {
    hide *;
    AfterPeriod(input, pos, f, PrintAll(more));
    if f == "" {
      if more != [] { PrintAllStart(more); }
      PrintAllEmpty(more);
      LonePeriod(input, pos);
    } else {
      PlainStart(f);
      PeriodItems(input, pos);
      LexBare(input, pos + 1, f, more);
    }
  }

  lemma AfterPeriod(input: string, pos: nat, f: string, rest: string)
    requires pos <= |input| && input[pos..] == "." + f + rest
    ensures pos < |input| && input[pos] == '.' && input[pos + 1..] == f + rest
    ensures f != "" ==> pos + 1 < |input| && input[pos + 1] == f[0]
    ensures f == "" && rest != "" ==> pos + 1 < |input| && input[pos + 1] == rest[0]
    ensures f == "" && rest == "" ==> pos == |input| - 1
  {
    assert "." + f + rest == "." + (f + rest);
    Split(input, pos, ".", f + rest);
    Split(input, pos + 1, f, rest);
  }

  lemma PlainStart(f: string)
    requires PlainField(f) && '.' !in f
    ensures f != "" && f[0] != '.' && f[0] != '['
  {}

  lemma PrintAllEmpty(sg: Segments)
    ensures sg == [] ==> PrintAll(sg) == ""
  {}

  lemma PrintAllCons(sg: Segments)
    requires sg != []
    ensures sg == [sg[0]] + sg[1..]
    ensures PrintAll(sg) == PrintSegment(sg[0]) + PrintAll(sg[1..])
    ensures AllPlainOrEmpty(sg) ==> PlainOrEmpty(sg[0]) && AllPlainOrEmpty(sg[1..])
    ensures AllPrintable(sg) <==> AllPlainOrEmpty(sg) && NoEmptyField(sg)
    ensures NoEmptyField(sg) <==> sg[0] != FieldSegment("") && NoEmptyField(sg[1..])
  {
    if sg[0] != FieldSegment("") && NoEmptyField(sg[1..]) {
      forall i | 0 <= i < |sg| ensures sg[i] != FieldSegment("") {
        if i > 0 { assert sg[i] == sg[1..][i - 1]; }
      }
    }
    if NoEmptyField(sg) {
      forall i | 0 <= i < |sg[1..]| ensures sg[1..][i] != FieldSegment("") {
        assert sg[1..][i] == sg[i + 1];
      }
    }
  }

  /** The first segment and what follows it, anywhere but at the very start. */
  lemma ReadsFirst(input: string, pos: nat, s: Segment, more: Segments) returns (next: nat)
    requires 0 < pos <= |input| && PlainOrEmpty(s)
    requires input[pos..] == PrintSegment(s) + PrintAll(more)
    ensures s == FieldSegment("") ==> FromItems(FromField(input, pos)).Unexpected?
    ensures s != FieldSegment("") ==>
              && pos < next <= |input| && input[next..] == PrintAll(more)
              && FromItems(FromField(input, pos)) == Prepend(s, FromItems(FromField(input, next)))
  {
    hide FromField, FromItems, PrintAll;
    if InBrackets(s) {
      LexBracketed(input, pos, s, PrintAll(more));
      next := pos + |Bracketed(s)| + 2;
    } else {
      LexDotted(input, pos, s.field, more);
      next := pos + 1 + |s.field|;
    }
  }

  /** Anywhere but at the very start, printed segments are read back, unless
      one of them is an empty field: then the text does not parse. */
  lemma {:induction false} ReadsBack(input: string, pos: nat, sg: Segments)
    requires 0 < pos <= |input| && AllPlainOrEmpty(sg)
    requires input[pos..] == PrintAll(sg)
    ensures NoEmptyField(sg) ==> FromItems(FromField(input, pos)) == Ok(sg)
    ensures !NoEmptyField(sg) ==> FromItems(FromField(input, pos)).Unexpected?
    decreases |sg|
  {
    hide FromField, FromItems, PrintSegment, PlainOrEmpty;
    if sg == [] {
      AtEnd(input);
      return;
    }
    PrintAllCons(sg);
    var next := ReadsFirst(input, pos, sg[0], sg[1..]);
    if sg[0] != FieldSegment("") { ReadsBack(input, next, sg[1..]); }
  }

  /** At the very start the period before a field is not there. */
  lemma ReadsBackFromStart(sg: Segments)
    requires AllPlainOrEmpty(sg) && sg != [] && sg[0] != FieldSegment("")
    ensures NoEmptyField(sg) ==> Parse(Print(sg)) == Ok(sg)
    ensures !NoEmptyField(sg) ==> Parse(Print(sg)).Unexpected?
  {
    hide FromField, FromItems, PrintAll;
    var s, more, input := sg[0], sg[1..], Print(sg);
    PrintAllCons(sg);
    assert input[0..] == input;
    var next: nat;
    if InBrackets(s) {
      BracketedReadsBack(s);
      LexBracketed(input, 0, s, PrintAll(more));
      next := |Bracketed(s)| + 2;
    } else {
      assert PrintAll(sg)[1..] == s.field + PrintAll(more);
      LexBare(input, 0, s.field, more);
      next := |s.field|;
    }
    ReadsBack(input, next, more);
  }

  /** An empty field at the start loses its period, and with it its place. */
  lemma EmptyFirstIsLost(sg: Segments)
    requires AllPlainOrEmpty(sg) && sg != [] && sg[0] == FieldSegment("")
    ensures Parse(Print(sg)) != Ok(sg)
  {
    hide FromField, FromItems, PrintSegment, PlainOrEmpty;
    var more := sg[1..];
    PrintAllCons(sg);
    assert PrintSegment(sg[0]) == "." by { EmptyFieldPrintsPeriod(); }
    assert Print(sg) == PrintAll(more);
    if more == [] {
      AtEnd("");
    } else {
      PrintAllStart(more);
      if PrintAll(more)[0] == '.' {
        LonePeriod(Print(sg), 0);
      } else {
        assert Print(more) == PrintAll(more);
        BracketFirst(more);
        ReadsBackFromStart(more);
      }
    }
  }

  lemma EmptyFieldPrintsPeriod()
    ensures PrintSegment(FieldSegment("")) == "."
  {}

  lemma BracketFirst(sg: Segments)
    requires sg != [] && PrintAll(sg) != "" && PrintAll(sg)[0] == '['
    ensures sg[0] != FieldSegment("")
  {}

  // What the parser can produce.

  /** Names and indexes as the lexer emits them hold no bracket. */
  predicate CleanItem(i: Item) {
    i.Token? && (i.typ == FieldItem || i.typ == FieldOrIndexItem) ==> BracketFree(i.val)
  }

  predicate CleanItems(items: seq<Item>) {
    forall k :: 0 <= k < |items| ==> CleanItem(items[k])
  }

  /** What is emitted for a field, before what follows it. */
  lemma FieldIsClean(input: string, pos: nat, items: seq<Item>)
    requires pos <= |input| && CleanItems(items)
    ensures CleanItems(Emitted(FieldItem, input, pos, FieldEnd(input, pos)) + items)
  {
    var text := input[pos..FieldEnd(input, pos)];
    forall c | c in text ensures !IsSpecial(c) {}
    assert BracketFree(text);
  }

  lemma {:induction false} LexIsClean(input: string, pos: nat)
    requires pos <= |input|
    ensures CleanItems(FromField(input, pos))
    decreases |input| - pos
  {
    hide CleanItems, Emitted, FromPeriod, FromLeftBracket, IndexOf, FieldEnd;
    var i := FieldEnd(input, pos);
    var before := Emitted(FieldItem, input, pos, i);
    if i == |input| {
      FewAreClean([]);
      FieldIsClean(input, pos, []);
      assert before + [] == before;
    } else if input[i] == ']' {
      FewAreClean([Error(i)]);
    } else if input[i] == '[' {
      var rb := IndexOf(input, ']', i + 1);
      if rb < |input| { LexIsClean(input, rb + 1); }
      BracketIsClean(input, i);
      FieldIsClean(input, pos, FromLeftBracket(input, i));
    } else {
      LexIsClean(input, i + 1);
      PeriodIsClean(input, i);
      FieldIsClean(input, pos, FromPeriod(input, i));
    }
  }

  lemma FewAreClean(items: seq<Item>)
    requires forall k :: 0 <= k < |items| ==> items[k].Error?
    ensures CleanItems(items)
  {}

  lemma PeriodIsClean(input: string, pos: nat)
    requires pos < |input| && input[pos] == '.'
    requires CleanItems(FromField(input, pos + 1))
    ensures CleanItems(FromPeriod(input, pos))
  {
    hide FromField;
  }

  lemma BracketIsClean(input: string, pos: nat)
    requires pos < |input| && input[pos] == '['
    requires var rb := IndexOf(input, ']', pos + 1); rb < |input| ==> CleanItems(FromField(input, rb + 1))
    ensures CleanItems(FromLeftBracket(input, pos))
  {
    hide FromField;
    var rb := IndexOf(input, ']', pos + 1);
    if rb < |input| {
      assert CleanItems(FromRightBracket(input, rb));
      assert CleanItems(FromFieldOrIndex(input, pos + 1));
    }
  }

  lemma {:induction false} CleanItemsGivePlain(items: seq<Item>)
    requires CleanItems(items)
    ensures FromItems(items).Ok? ==> AllPlainOrEmpty(FromItems(items).segments)
  {
    if items != [] && items[0].Token? {
      CleanItemsGivePlain(items[1..]);
      TrimFacts(items[0].val);
    }
  }

  lemma ParsedSegments(path: string)
    requires Parse(path).Ok?
    ensures AllPlainOrEmpty(Parse(path).segments)
    ensures NoEmptyField(Parse(path).segments) ==> AllPrintable(Parse(path).segments)
  {
    LexIsClean(path, 0);
    CleanItemsGivePlain(Lex(path));
  }

  /** Parsing undoes printing exactly for the printable lists: non-empty,
      bracket-free fields without outer quotes and indexes below 2^32. */
  lemma ParseUndoesPrint(sg: Segments)
    ensures Parse(Print(sg)) == Ok(sg) <==> AllPrintable(sg)
  {
    hide FromField, FromItems;
    if sg == [] {
      AtEnd("");
    } else if AllPlainOrEmpty(sg) {
      PrintAllCons(sg);
      if sg[0] == FieldSegment("") { EmptyFirstIsLost(sg); } else { ReadsBackFromStart(sg); }
    } else if Parse(Print(sg)).Ok? {
      ParsedSegments(Print(sg));
    }
  }

  /** Printing what was parsed and parsing again changes nothing, as long as no
      parsed field is empty; a quoted empty name is the one thing that is lost. */
  lemma ReparseIsStable(path: string)
    requires Parse(path).Ok?
    ensures Parse(Print(Parse(path).segments)) == Parse(path) <==> NoEmptyField(Parse(path).segments)
  {
    ParsedSegments(path);
    ParseUndoesPrint(Parse(path).segments);
  }

  /** Such a path: a quoted empty name. */
  lemma EmptyFieldParses()
    ensures Parse("''") == Ok([FieldSegment("")])
    ensures Parse(Print([FieldSegment("")])) != Parse("''")
  {
    var input := "''";
    FieldEndAt(input, 0, 2);
    FieldItems(input, 0, 2);
    AtEnd(input);
    FromFieldItem(0, input, FromField(input, 2));
    assert input[0..2] == input;
    TrimEmptyQuotes();
    assert Field(input) == FieldSegment("");
    assert Parse(input) == Ok([FieldSegment("")]);
    ReparseIsStable(input);
    assert [FieldSegment("")][0] == FieldSegment("");
  }

  lemma TrimEmptyQuotes()
    ensures Trim("''") == ""
  {
    assert "''"[1..] == "'" && "'"[1..] == "";
    assert TrimLeft("''") == TrimLeft("'") == TrimLeft("");
  }
}
