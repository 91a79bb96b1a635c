/**
 How sv_msq.c cuts standard input into messages: `fgets(text, size, stdin)` takes at most
 size - 1 bytes and stops after a newline, and what is sent is the text up to its first NUL.
 */
module Fgets {

  const NUL: char := '\0'

  /** The number of bytes fgets takes when the buffer has room for `room` of them. */
  function Taken(input: string, room: nat): (n: nat)
    ensures n <= |input| && n <= room
  {
    if input == [] || room == 0 then 0
    else if input[0] == '\n' then 1
    else 1 + Taken(input[1..], room - 1)
  }

  /** Successive fgets calls up to the end of the input. */
  function Chunks(input: string, room: nat): seq<string>
    requires room > 0
  {
    if input == [] then []
    else
      var n := Taken(input, room);
      [input[..n]] + Chunks(input[n..], room)
  }

  /** The bytes before the first NUL. */
  function Truncated(chunk: string): string {
    if chunk == [] || chunk[0] == NUL then [] else [chunk[0]] + Truncated(chunk[1..])
  }

  function Texts(chunks: seq<string>): seq<string> {
    if chunks == [] then [] else [Truncated(chunks[0])] + Texts(chunks[1..])
  }

  function Concat(parts: seq<string>): string {
    if parts == [] then [] else parts[0] + Concat(parts[1..])
  }

  /** What every buffer filled by fgets looks like; `last` says whether the input ends with it. */
  ghost predicate IsChunk(c: string, room: nat, last: bool) {
    && 0 < |c| <= room
    && (forall i | 0 <= i < |c| - 1 :: c[i] != '\n')
    && (|c| < room && c[|c| - 1] != '\n' ==> last)
  }

  ghost predicate AreChunks(cs: seq<string>, room: nat) {
    forall i | 0 <= i < |cs| :: IsChunk(cs[i], room, i == |cs| - 1)
  }

  lemma {:induction false} TakenIsChunk(input: string, room: nat)
    requires input != [] && room > 0
    ensures IsChunk(input[..Taken(input, room)], room, Taken(input, room) == |input|)
    decreases room
  {
    if input[0] != '\n' && room > 1 && |input| > 1 {
      TakenIsChunk(input[1..], room - 1);
      var n := Taken(input, room);
      var c, d := input[..n], input[1..][..n - 1];
      assert forall i | 1 <= i < n :: c[i] == d[i - 1];
    }
  }

  /** The only way to cut a chunk off the front is the one fgets takes. */
  lemma {:induction false} TakenUnique(input: string, room: nat, c: string, rest: string)
    requires room > 0 && input == c + rest && IsChunk(c, room, rest == [])
    ensures Taken(input, room) == |c|
    decreases room
  {
    if input[0] != '\n' && |c| > 1 {
      assert input[1..] == c[1..] + rest;
      assert forall i | 0 <= i < |c| - 2 :: c[1..][i] == c[i + 1];
      assert c[1..][|c| - 2] == c[|c| - 1];
      TakenUnique(input[1..], room - 1, c[1..], rest);
    } else if input[0] != '\n' {
      assert room == 1 || rest == [];
      assert input[1..] == rest;
    } else {
      assert |c| == 1;
    }
  }

  /** The chunks concatenate back to the input, each is what fgets can return, and nothing else is. */
  lemma {:induction false} ChunksExactly(input: string, room: nat, cs: seq<string>)
    requires room > 0
    ensures cs == Chunks(input, room) <==> Concat(cs) == input && AreChunks(cs, room)
    decreases input
  {
    ChunksSound(input, room);
    if Concat(cs) == input && AreChunks(cs, room) { ChunksUnique(input, room, cs); }
  }

  lemma {:induction false} ChunksSound(input: string, room: nat)
    requires room > 0
    ensures Concat(Chunks(input, room)) == input && AreChunks(Chunks(input, room), room)
    decreases input
  {
    if input != [] {
      TakenIsChunk(input, room);
      var n := Taken(input, room);
      ChunksSound(input[n..], room);
      var cs, ds := Chunks(input, room), Chunks(input[n..], room);
      assert forall i | 1 <= i < |cs| :: cs[i] == ds[i - 1];
      if ds == [] { assert input[n..] == []; }
      assert input == input[..n] + input[n..];
    }
  }

  lemma {:induction false} ChunksUnique(input: string, room: nat, cs: seq<string>)
    requires room > 0 && Concat(cs) == input && AreChunks(cs, room)
    ensures cs == Chunks(input, room)
    decreases cs
  {
    if cs != [] {
      var rest := Concat(cs[1..]);
      assert IsChunk(cs[0], room, |cs| == 1);
      if |cs| > 1 { assert IsChunk(cs[1], room, |cs| == 2); assert rest == cs[1] + Concat(cs[1..][1..]); }
      TakenUnique(input, room, cs[0], rest);
      assert input[..|cs[0]|] == cs[0] && input[|cs[0]|..] == rest;
      assert forall i | 0 <= i < |cs| - 1 :: cs[1..][i] == cs[i + 1];
      ChunksUnique(rest, room, cs[1..]);
    }
  }

  lemma {:induction false} ConcatAppend(a: seq<string>, b: seq<string>)
    ensures Concat(a + b) == Concat(a) + Concat(b)
  {
    if a == [] {
      assert a + b == b;
    } else {
      assert (a + b)[1..] == a[1..] + b;
      ConcatAppend(a[1..], b);
    }
  }

  lemma {:induction false} TextsAppend(a: seq<string>, b: seq<string>)
    ensures Texts(a + b) == Texts(a) + Texts(b)
  {
    if a == [] {
      assert a + b == b;
    } else {
      assert (a + b)[1..] == a[1..] + b;
      TextsAppend(a[1..], b);
    }
  }

  lemma {:induction false} TruncatedExactly(chunk: string)
    ensures |Truncated(chunk)| <= |chunk| && Truncated(chunk) <= chunk
    ensures |Truncated(chunk)| == |chunk| <==> NUL !in chunk
    ensures NUL !in chunk ==> Truncated(chunk) == chunk
  {
    if chunk != [] {
      TruncatedExactly(chunk[1..]);
      assert chunk == [chunk[0]] + chunk[1..];
    }
  }

  lemma {:induction false} TextsLength(chunks: seq<string>)
    ensures |Concat(Texts(chunks))| <= |Concat(chunks)|
    ensures |Concat(Texts(chunks))| == |Concat(chunks)| <==> NUL !in Concat(chunks)
    ensures NUL !in Concat(chunks) ==> Texts(chunks) == chunks
  {
    if chunks != [] {
      TruncatedExactly(chunks[0]);
      TextsLength(chunks[1..]);
      assert Texts(chunks)[1..] == Texts(chunks[1..]);
      assert chunks == [chunks[0]] + chunks[1..];
    }
  }

  /** The texts sent add up to what was read exactly if there was no NUL in it. */
  lemma TextsExactly(chunks: seq<string>)
    ensures Concat(Texts(chunks)) == Concat(chunks) <==> NUL !in Concat(chunks)
  {
    TextsLength(chunks);
  }

  lemma {:induction false} SnocChunk(chunks: seq<string>, c: string)
    ensures Concat(chunks + [c]) == Concat(chunks) + c
    ensures Texts(chunks + [c]) == Texts(chunks) + [Truncated(c)]
  {
    ConcatAppend(chunks, [c]);
    TextsAppend(chunks, [c]);
    assert Concat([c]) == c && Texts([c]) == [Truncated(c)];
  }

  /** One fgets call moves a chunk from the input to what was read. */
  lemma ReadOne(chunks: seq<string>, input: string, room: nat)
    requires input != [] && room > 0
    ensures var c, rest := input[..Taken(input, room)], input[Taken(input, room)..];
      && chunks + Chunks(input, room) == (chunks + [c]) + Chunks(rest, room)
      && Concat(chunks) + input == Concat(chunks + [c]) + rest
      && Texts(chunks + [c]) == Texts(chunks) + [Truncated(c)]
  {
    var c, rest := input[..Taken(input, room)], input[Taken(input, room)..];
    SnocChunk(chunks, c);
    assert Concat(chunks) + input == Concat(chunks + [c]) + rest by {
      assert input == c + rest;
      assert Concat(chunks) + (c + rest) == Concat(chunks) + c + rest;
    }
    assert Chunks(input, room) == [c] + Chunks(rest, room);
    assert chunks + ([c] + Chunks(rest, room)) == (chunks + [c]) + Chunks(rest, room);
  }
}
