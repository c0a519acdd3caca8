/** Byte strings and their newline-terminated lines. */
module ByteLines {
  newtype byte = x: int | 0 <= x < 256
  type Bytes = seq<byte>
  const NEWLINE: byte := 10

  /** One line with its newline, which is the only one in it. */
  predicate IsLine(b: Bytes) { b != [] && b[|b| - 1] == NEWLINE && forall i :: 0 <= i < |b| - 1 ==> b[i] != NEWLINE }

  /** The place of the first newline, or the length when there is none. */
  function FirstNewline(b: Bytes): (k: nat)
    ensures k <= |b| && (forall i :: 0 <= i < k ==> b[i] != NEWLINE) && (k < |b| ==> b[k] == NEWLINE)
  {
    if b == [] || b[0] == NEWLINE then 0 else 1 + FirstNewline(b[1..])
  }

  /** The complete lines of b; an unfinished last line is not one of them. */
  function Lines(b: Bytes): seq<Bytes> {
    var k := FirstNewline(b);
    if k == |b| then [] else [b[..k + 1]] + Lines(b[k + 1..])
  }

  /** A place where a line may start. */
  predicate IsBoundary(b: Bytes, at: nat) { at <= |b| && (at == 0 || b[at - 1] == NEWLINE) }

  /** Splitting at a line boundary splits the lines. */
  lemma {:induction false} LinesSplit(a: Bytes, b: Bytes)
    requires IsBoundary(a, |a|)
    ensures Lines(a + b) == Lines(a) + Lines(b)
    decreases |a|
  {
    hide Lines; hide FirstNewline;
    if a == [] {
      NoLines();
      assert a + b == b;
    } else {
      var k := FirstNewline(a);
      assert k < |a|;
      assert IsBoundary(a[k + 1..], |a[k + 1..]|);
      LinesSplit(a[k + 1..], b);
      FirstLine(a, b, k);
      LinesUnfold(a);
      LinesUnfold(a + b);
    }
  }

  lemma {:induction false} NoLines()
    ensures Lines([]) == []
  {}

  lemma {:induction false} LinesUnfold(b: Bytes)
    requires FirstNewline(b) < |b|
    ensures Lines(b) == [b[..FirstNewline(b) + 1]] + Lines(b[FirstNewline(b) + 1..])
  {}

  lemma {:induction false} FirstLine(a: Bytes, b: Bytes, k: nat)
    requires k < |a| && k == FirstNewline(a)
    ensures k == FirstNewline(a + b) && (a + b)[..k + 1] == a[..k + 1] && (a + b)[k + 1..] == a[k + 1..] + b
  {}

  lemma {:induction false} LinesOfLine(b: Bytes)
    requires IsLine(b)
    ensures Lines(b) == [b]
  {
    assert FirstNewline(b) == |b| - 1;
    assert b[..|b|] == b && b[|b|..] == [];
  }

  /** Reading one more line after a boundary adds exactly that line. */
  lemma LinesAppend(b: Bytes, at: nat, to: nat)
    requires IsBoundary(b, at) && at <= to <= |b| && IsLine(b[at..to])
    ensures Lines(b[..to]) == Lines(b[..at]) + [b[at..to]] && IsBoundary(b, to)
  {
    hide Lines; hide FirstNewline;
    assert b[..to] == b[..at] + b[at..to];
    LinesSplit(b[..at], b[at..to]);
    LinesOfLine(b[at..to]);
    assert b[to - 1] == b[at..to][to - at - 1];
  }

  /** The unfinished line at the end. */
  function Tail(b: Bytes): Bytes {
    var k := FirstNewline(b);
    if k == |b| then b else Tail(b[k + 1..])
  }

  /** A chunk has no newline before its last byte. */
  predicate IsChunk(c: Bytes) { forall i :: 0 <= i < |c| - 1 ==> c[i] != NEWLINE }

  predicate EndsLine(c: Bytes) { c != [] && c[|c| - 1] == NEWLINE }

  lemma {:induction false} FirstChunk(a: Bytes, c: Bytes)
    requires FirstNewline(a) == |a| && IsChunk(c)
    ensures FirstNewline(a + c) == if EndsLine(c) then |a + c| - 1 else |a + c|
  {
    hide FirstNewline;
    var k := FirstNewline(a + c);
    assert forall i :: 0 <= i < |a| ==> (a + c)[i] == a[i];
    assert forall i :: 0 <= i < |c| ==> (a + c)[|a| + i] == c[i];
  }

  lemma {:induction false} TailUnfold(b: Bytes)
    requires FirstNewline(b) < |b|
    ensures Tail(b) == Tail(b[FirstNewline(b) + 1..])
  {}

  lemma {:induction false} NoNewline(b: Bytes)
    requires FirstNewline(b) == |b|
    ensures Lines(b) == [] && Tail(b) == b
  {}

  /** Reading one more chunk extends the unfinished line, or finishes it. */
  lemma {:induction false} ChunkAppend(a: Bytes, c: Bytes)
    requires IsChunk(c)
    ensures Lines(a + c) == Lines(a) + if EndsLine(c) then [Tail(a) + c] else []
    ensures Tail(a + c) == if EndsLine(c) then [] else Tail(a) + c
    decreases |a|
  {
    hide Lines; hide Tail; hide FirstNewline;
    var k := FirstNewline(a);
    if k == |a| {
      NoNewline(a);
      FirstChunk(a, c);
      LastChunk(a, c);
    } else {
      ChunkAppend(a[k + 1..], c);
      FirstLine(a, c, k);
      LinesUnfold(a);
      LinesUnfold(a + c);
      TailUnfold(a);
      TailUnfold(a + c);
    }
  }

  lemma {:induction false} LastChunk(a: Bytes, c: Bytes)
    requires FirstNewline(a + c) == if EndsLine(c) then |a + c| - 1 else |a + c|
    ensures Lines(a + c) == if EndsLine(c) then [a + c] else []
    ensures Tail(a + c) == if EndsLine(c) then [] else a + c
  {
    hide FirstNewline;
    if EndsLine(c) {
      assert (a + c)[..|a + c|] == a + c && (a + c)[|a + c|..] == [];
      NothingFirst();
    }
  }

  lemma {:induction false} NothingFirst()
    ensures FirstNewline([]) == 0
  {}
}
