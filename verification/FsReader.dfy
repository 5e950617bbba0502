/** Reading the files of a directory as one stream (`pkg/parser/fsreader.go`).

The files are fixed: what `afero.ReadFile` gives for each path, its bytes and the
error it reports with them (a file that cannot be opened has no bytes and an
error). */
module FsReader {

  datatype Problem = NoProblem | EndOfFile | OtherProblem

  datatype File = File(bytes: string, problem: Problem)

  const DOCUMENT_END := "\n...\n"
  const DOCUMENT_START := "\n---\n"

  datatype Status = Fine | EOF | Failed

  datatype State = State(files: seq<File>, index: nat, position: nat, writeBreak: bool, wroteBreak: bool)
  {
    predicate Valid() {
      && index <= |files|
      && (writeBreak || wroteBreak ==> index < |files|)
      && !(writeBreak && wroteBreak)
      && (index < |files| ==> position <= |files[index].bytes|)
    }
  }

  /** `copy`: as much as fits. */
  function Fitting(s: string, room: nat): string {
    if |s| <= room then s else s[..room]
  }

  datatype Reading = Reading(state: State, out: string, status: Status)

  /** One call of Read with a buffer of `room` bytes. */
  function Advance(s: State, room: nat): (r: Reading)
    requires s.Valid()
    ensures r.state.Valid() && r.state.files == s.files
  {
    if s.wroteBreak then
      Reading(s.(index := s.index + 1, position := 0, wroteBreak := false), Fitting(DOCUMENT_START, room), Fine)
    else if s.index == |s.files| then Reading(s, "", EOF)
    else if s.writeBreak then Reading(s.(writeBreak := false, wroteBreak := true), Fitting(DOCUMENT_END, room), Fine)
    else
      var f := s.files[s.index];
      var out := Fitting(f.bytes[s.position..], room);
      var done := out == "" || f.problem == EndOfFile;
      Reading(s.(position := s.position + |out|, writeBreak := done), out, if done || f.problem == NoProblem then Fine else Failed)
  }

  class FsReadCloser {
    const files: seq<File>
    var index: nat
    var position: nat
    var writeBreak: bool
    var wroteBreak: bool

    ghost function Now(): State
      reads this
    {
      State(files, index, position, writeBreak, wroteBreak)
    }

    constructor (files: seq<File>)
      ensures Now() == State(files, 0, 0, false, false) && Now().Valid()
    {
      this.files := files;
      index, position, writeBreak, wroteBreak := 0, 0, false, false;
    }

    method Read(p: array<char>) returns (n: nat, status: Status)
      requires Now().Valid()
      modifies this, p
      ensures Now().Valid() && n <= p.Length
      ensures Reading(Now(), p[..n], status) == Advance(old(Now()), p.Length)
      ensures p[n..] == old(p[..])[n..]
    {
      status := Fine;
      if wroteBreak {
        index, position, wroteBreak := index + 1, 0, false;
        n := Copy(p, DOCUMENT_START);
        return;
      }
      if index == |files| {
        n, status := 0, EOF;
        return;
      }
      if writeBreak {
        n := Copy(p, DOCUMENT_END);
        writeBreak, wroteBreak := false, true;
        return;
      }
      var f := files[index];
      n := Copy(p, f.bytes[position..]);
      position := position + n;
      status := if f.problem == NoProblem then Fine else Failed;
      if f.problem == EndOfFile || n == 0 { writeBreak, status := true, Fine; }
    }

    /** `copy` into the buffer. */
    static method Copy(p: array<char>, s: string) returns (n: nat)
      modifies p
      ensures n <= p.Length && p[..n] == Fitting(s, p.Length) && p[n..] == old(p[..])[n..]
    {
      n := 0;
      while n < p.Length && n < |s|
        invariant n <= p.Length && n <= |s|
        invariant p[..n] == s[..n] && p[n..] == old(p[..])[n..]
      {
        p[n] := s[n];
        n := n + 1;
      }
      assert n == |s| ==> s[..n] == s;
    }
  }

  // ---- the stream ----

  /** File by file: its bytes, the end of a document, the start of another. */
  function StreamFrom(files: seq<File>, i: nat): string
    decreases |files| - i, 1
  {
    if i >= |files| then "" else files[i].bytes + Between(files, i)
  }

  /** What follows the bytes of the i-th file. */
  function Between(files: seq<File>, i: nat): string
    requires i < |files|
    decreases |files| - i, 0
  {
    DOCUMENT_END + (DOCUMENT_START + StreamFrom(files, i + 1))
  }

  /** What is still to be read. */
  function Rest(s: State): string
    requires s.Valid()
  {
    if s.index == |s.files| then ""
    else
      if s.wroteBreak then DOCUMENT_START + StreamFrom(s.files, s.index + 1)
      else if s.writeBreak then Between(s.files, s.index)
      else s.files[s.index].bytes[s.position..] + Between(s.files, s.index)
  }

  /** The buffer takes a whole break, or at least a byte where there are bytes, or
      all bytes of a file that is said to end with them. */
  predicate Suffices(s: State, room: nat)
    requires s.Valid()
  {
    if s.index == |s.files| then true
    else if s.writeBreak || s.wroteBreak then room >= 5
    else
      var left := |s.files[s.index].bytes| - s.position;
      if s.files[s.index].problem == EndOfFile then room >= left else room > 0 || left == 0
  }

  lemma RestAtNext(s: State)
    requires s.Valid() && s.wroteBreak
    ensures Rest(Advance(s, 5).state) == StreamFrom(s.files, s.index + 1)
  {
    if s.index + 1 < |s.files| {
      var bytes := s.files[s.index + 1].bytes;
      assert bytes[0..] == bytes;
    }
  }

  lemma BreakConserves(s: State, room: nat)
    requires s.Valid() && (s.writeBreak || s.wroteBreak)
    ensures var r := Advance(s, room);
            && (room >= 5 ==> Rest(s) == r.out + Rest(r.state))
            && |r.out| + |Rest(r.state)| == |Rest(s)| - (if room >= 5 then 0 else 5 - room)
  {
    if s.wroteBreak { RestAtNext(s); }
  }

  lemma BytesConserve(s: State, room: nat)
    requires s.Valid() && s.index < |s.files| && !s.writeBreak && !s.wroteBreak
    ensures var r := Advance(s, room);
            && (Suffices(s, room) ==> Rest(s) == r.out + Rest(r.state))
            && (!Suffices(s, room) ==> |r.out| + |Rest(r.state)| < |Rest(s)|)
  {
    hide Between, StreamFrom, Fitting;
    FittingSplits(s.files[s.index].bytes, s.position, room, Between(s.files, s.index));
  }

  lemma FittingSplits(b: string, position: nat, room: nat, after: string)
    requires position <= |b|
    ensures var out := Fitting(b[position..], room);
            && position + |out| <= |b| && (out == "" <==> room == 0 || position == |b|)
            && b[position..] + after == out + (b[position + |out|..] + after)
            && (position + |out| == |b| <==> |b| - position <= room)
            && (position == |b| ==> b[position..] == "")
            && (position + |out| == |b| ==> b[position + |out|..] + after == after)
  {
    var out := Fitting(b[position..], room);
    assert b[position..] == out + b[position + |out|..];
  }

  /** A Read loses nothing exactly if its buffer suffices; otherwise it loses bytes. */
  lemma ReadConservesExactly(s: State, room: nat)
    requires s.Valid()
    ensures var r := Advance(s, room);
            && (Suffices(s, room) ==> Rest(s) == r.out + Rest(r.state))
            && (!Suffices(s, room) ==> |r.out| + |Rest(r.state)| < |Rest(s)|)
  {
    if s.index == |s.files| {
    } else if s.writeBreak || s.wroteBreak {
      BreakConserves(s, room);
    } else {
      BytesConserve(s, room);
    }
  }

  /** The end is reported exactly when nothing is left. */
  lemma EndExactly(s: State, room: nat)
    requires s.Valid()
    ensures Advance(s, room).status == EOF <==> Rest(s) == ""
    ensures Advance(s, room).status == EOF ==> Advance(s, room).state == s
  {}

  // ---- any sequence of reads ----

  /** Reads with buffers of these sizes, one after the other. */
  function After(s: State, rooms: seq<nat>): (r: State)
    requires s.Valid()
    ensures r.Valid() && r.files == s.files
    decreases |rooms|
  {
    if rooms == [] then s else After(Advance(s, rooms[0]).state, rooms[1..])
  }

  function Output(s: State, rooms: seq<nat>): string
    requires s.Valid()
    decreases |rooms|
  {
    if rooms == [] then "" else Advance(s, rooms[0]).out + Output(Advance(s, rooms[0]).state, rooms[1..])
  }

  /** Every buffer suffices for what is read into it. */
  predicate AllSuffice(s: State, rooms: seq<nat>)
    requires s.Valid()
    decreases |rooms|
  {
    rooms != [] ==> Suffices(s, rooms[0]) && AllSuffice(Advance(s, rooms[0]).state, rooms[1..])
  }

  /** What was read and what is left make up what there was exactly if every
      buffer sufficed. */
  lemma {:induction false} NothingIsLost(s: State, rooms: seq<nat>)
    requires s.Valid()
    ensures var rest := Rest(After(s, rooms));
            && (AllSuffice(s, rooms) ==> Rest(s) == Output(s, rooms) + rest)
            && |Output(s, rooms)| + |rest| <= |Rest(s)|
            && (!AllSuffice(s, rooms) ==> |Output(s, rooms)| + |rest| < |Rest(s)|)
    decreases |rooms|
  {
    hide Rest, Suffices;
    if rooms != [] {
      var r := Advance(s, rooms[0]);
      ReadConservesExactly(s, rooms[0]);
      NothingIsLost(r.state, rooms[1..]);
      var out, rest := Output(r.state, rooms[1..]), Rest(After(s, rooms));
      assert r.out + (out + rest) == (r.out + out) + rest;
    }
  }

  function Start(files: seq<File>): (s: State)
    ensures s.Valid()
  {
    State(files, 0, 0, false, false)
  }

  lemma RestAtStart(files: seq<File>)
    ensures Rest(Start(files)) == StreamFrom(files, 0)
  {
    if files != [] { assert files[0].bytes[0..] == files[0].bytes; }
  }

  /** When the end is reported the whole stream has been read, the files in order
      and each followed by the two breaks, exactly if every buffer sufficed. */
  lemma WholeStreamExactly(files: seq<File>, rooms: seq<nat>, room: nat)
    requires Advance(After(Start(files), rooms), room).status == EOF
    ensures Output(Start(files), rooms) == StreamFrom(files, 0) <==> AllSuffice(Start(files), rooms)
  {
    hide Rest, Suffices, AllSuffice, Output, After, StreamFrom;
    var s := Start(files);
    RestAtStart(files);
    NothingIsLost(s, rooms);
    EndExactly(After(s, rooms), room);
  }

  predicate Large(rooms: seq<nat>) {
    forall i :: 0 <= i < |rooms| ==> rooms[i] >= 5
  }

  /** Buffers of five bytes suffice unless a file is said to end where it does not. */
  lemma {:induction false} FiveBytesSuffice(s: State, rooms: seq<nat>)
    requires s.Valid() && Large(rooms) && forall f :: f in s.files ==> f.problem != EndOfFile
    ensures AllSuffice(s, rooms)
    decreases |rooms|
  {
    if rooms != [] { FiveBytesSuffice(Advance(s, rooms[0]).state, rooms[1..]); }
  }

  /** The stream does not depend on the buffers. */
  lemma WholeStream(files: seq<File>, rooms: seq<nat>, room: nat)
    requires Large(rooms) && (forall f :: f in files ==> f.problem != EndOfFile)
    requires Advance(After(Start(files), rooms), room).status == EOF
    ensures Output(Start(files), rooms) == StreamFrom(files, 0)
  {
    FiveBytesSuffice(Start(files), rooms);
    WholeStreamExactly(files, rooms, room);
  }

  // ---- the end is reached ----

  /** How many Reads there are to go at most: one for each byte, one that finds
      no more bytes, and two for the breaks. */
  function ReadsFrom(files: seq<File>, i: nat): nat
    decreases |files| - i
  {
    if i >= |files| then 0 else |files[i].bytes| + 3 + ReadsFrom(files, i + 1)
  }

  function ReadsLeft(s: State): nat
    requires s.Valid()
  {
    if s.index == |s.files| then 0
    else
      ReadsFrom(s.files, s.index + 1) +
      if s.wroteBreak then 1
      else if s.writeBreak then 2
      else |s.files[s.index].bytes| - s.position + 3
  }

  lemma ReadProgresses(s: State, room: nat)
    requires s.Valid() && s.index < |s.files|
    ensures ReadsLeft(Advance(s, room).state) < ReadsLeft(s)
  {}

  lemma {:induction false} EndIsReached(s: State, rooms: seq<nat>, room: nat)
    requires s.Valid() && |rooms| >= ReadsLeft(s)
    ensures Advance(After(s, rooms), room).status == EOF
    decreases |rooms|
  {
    if s.index == |s.files| {
      StaysAtEnd(s, rooms);
    } else {
      ReadProgresses(s, rooms[0]);
      EndIsReached(Advance(s, rooms[0]).state, rooms[1..], room);
    }
  }

  lemma {:induction false} StaysAtEnd(s: State, rooms: seq<nat>)
    requires s.Valid() && s.index == |s.files|
    ensures After(s, rooms) == s
    decreases |rooms|
  {
    if rooms != [] { StaysAtEnd(s, rooms[1..]); }
  }

  // ---- files that fail ----

  /** A file that cannot be opened reads as an empty one, without an error. */
  lemma OpenErrorsAreSwallowed(s: State, room: nat, i: nat)
    requires s.Valid() && i < |s.files| && s.files[i].bytes == ""
    ensures var t := s.(files := s.files[i := File("", NoProblem)]);
            var r, q := Advance(s, room), Advance(t, room);
            t.Valid() && r.out == q.out && r.status == q.status && q.state == r.state.(files := t.files)
  {}

  /** An error that comes with bytes is reported with every Read that returns
      some, and with no other. */
  lemma FailuresReported(s: State, room: nat)
    requires s.Valid()
    ensures Advance(s, room).status == Failed <==>
              && s.index < |s.files| && !s.writeBreak && !s.wroteBreak && room > 0
              && s.files[s.index].problem == OtherProblem && s.position < |s.files[s.index].bytes|
  {}

  // ---- an input that loses bytes ----

  /** Whatever the size of the buffers below five bytes, a file of one byte is not
      read whole, and no error says so. */
  lemma SmallBuffersLose(room: nat)
    requires room < 5
    ensures var s := Start([File("a", NoProblem)]);
            var rooms := [room, room, room, room];
            && Advance(After(s, rooms), room).status == EOF
            && Output(s, rooms) != StreamFrom(s.files, 0)
            && forall i :: 0 <= i < 4 ==> Advance(After(s, rooms[..i]), room).status != Failed
  {
    var s := Start([File("a", NoProblem)]);
    var rooms := [room, room, room, room];
    assert ReadsFrom(s.files, 1) == 0;
    EndIsReached(s, rooms, room);
    assert !AllSuffice(s, rooms) by {
      if room > 0 {
        var t := Advance(s, room).state;
        var u := Advance(t, room).state;
        assert rooms[1..] == [room, room, room] && rooms[1..][1..] == [room, room];
        assert u.writeBreak && !Suffices(u, room);
        assert !AllSuffice(u, [room, room]);
      }
    }
    WholeStreamExactly(s.files, rooms, room);
    forall i | 0 <= i < 4 ensures Advance(After(s, rooms[..i]), room).status != Failed {
      FailuresReported(After(s, rooms[..i]), room);
    }
  }
}
