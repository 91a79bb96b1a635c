/**
 The byte-transfer loops of advanced_io/nonblock_io.c and file_io/copy.c, run against a kernel
 that answers every read and write as it likes within the contract of the call.
 */
module Transfer {

  type Byte = bv8

  /** What write returns when asked for `n` bytes: never more than that. */
  function WriteResult(answer: int, n: nat): int {
    if answer > n then n else if answer < 0 then -1 else answer
  }

  /** What read returns for a regular file with `left` bytes before its end; 0 only at the end. */
  function ReadResult(answer: int, left: nat, size: nat): (n: int)
    ensures n <= left && n <= size
  {
    if answer < 0 then -1
    else if left == 0 || size == 0 then 0
    else if answer > left && left <= size then left
    else if answer > size && size <= left then size
    else if answer == 0 then 1
    else answer
  }

  /** The answers stand for all a kernel may do: fail, or take any part of what is asked. */
  lemma WriteAnswersExactly(r: int, n: nat)
    ensures (exists answer :: WriteResult(answer, n) == r) <==> -1 <= r <= n
  {
    if -1 <= r <= n { assert WriteResult(r, n) == r; }
  }

  /** A read fails, returns 0 exactly at the end, and otherwise any number of the bytes that are left and asked for. */
  lemma ReadAnswersExactly(r: int, left: nat, size: nat)
    ensures (exists answer :: ReadResult(answer, left, size) == r)
       <==> r == -1 || (if left == 0 || size == 0 then r == 0 else 1 <= r <= left && r <= size)
  {
    if r == -1 || (if left == 0 || size == 0 then r == 0 else 1 <= r <= left && r <= size) {
      assert ReadResult(r, left, size) == r;
    }
  }

  class File {
    var contents: seq<Byte>

    /** Reads the bytes from `offset` on, as many as the kernel hands over. */
    method Read(buf: array<Byte>, offset: nat, answer: int) returns (n: int)
      requires offset <= |contents|
      modifies buf
      ensures n == ReadResult(answer, |contents| - offset, buf.Length)
      ensures n > 0 ==> buf[..n] == contents[offset..offset + n]
    {
      n := ReadResult(answer, |contents| - offset, buf.Length);
      if n > 0 {
        forall j | 0 <= j < n { buf[j] := contents[offset + j]; }
      }
    }

    /** Appends the bytes that the kernel takes. */
    method Write(buf: array<Byte>, start: nat, n: nat, answer: int) returns (nwrite: int)
      requires start + n <= buf.Length
      modifies this
      ensures nwrite == WriteResult(answer, n)
      ensures contents == old(contents) + if nwrite > 0 then buf[start..start + nwrite] else []
    {
      nwrite := WriteResult(answer, n);
      if nwrite > 0 {
        contents := contents + buf[start..start + nwrite];
      }
    }
  }

  // ---------------------------------------------------------------- nonblock_io.c

  /** What the answers leave unwritten of `n` bytes, and how many of them are used. */
  function Drain(n: int, answers: seq<int>): (int, nat) {
    if n <= 0 || answers == [] then (n, 0)
    else
      var w := WriteResult(answers[0], n);
      var r := Drain(if w > 0 then n - w else n, answers[1..]);
      (r.0, r.1 + 1)
  }

  /**
   The loop of nonblock_io.c on a buffer into which read put `nread` bytes (or none, if it
   returned 0 or -1).  The run is cut off when the answers are used up.
   */
  method WriteAll(buf: array<Byte>, nread: int, out: File, answers: seq<int>)
    returns (ptr: nat, ntowrite: int, calls: nat)
    requires nread <= buf.Length
    modifies out
    ensures (ntowrite, calls) == Drain(nread, answers)
    ensures ptr == (if nread > 0 then nread - ntowrite else 0) <= buf.Length
    ensures out.contents == old(out.contents) + buf[..ptr]
    ensures ntowrite > 0 ==> calls == |answers|
  {
    ptr, ntowrite, calls := 0, nread, 0;
    while ntowrite > 0 && calls < |answers|
      invariant calls <= |answers|
      invariant (ptr + ntowrite == nread && 0 <= ntowrite) || (nread <= 0 && ptr == 0 && ntowrite == nread)
      invariant out.contents == old(out.contents) + buf[..ptr]
      invariant var rest := Drain(ntowrite, answers[calls..]); Drain(nread, answers) == (rest.0, rest.1 + calls)
      decreases |answers| - calls
    {
      assert answers[calls..][1..] == answers[calls + 1..];
      ghost var before := ptr;
      var nwrite := out.Write(buf, ptr, ntowrite, answers[calls]);
      calls := calls + 1;
      if nwrite > 0 {
        ptr := ptr + nwrite;
        ntowrite := ntowrite - nwrite;
        assert buf[..ptr] == buf[..before] + buf[before..ptr];
      }
    }
  }

  /** Never more than `most` failures in a row, and only `left` of them before the next success. */
  predicate Gaps(answers: seq<int>, most: nat, left: nat) {
    answers != [] ==>
      if answers[0] > 0 then Gaps(answers[1..], most, most)
      else left > 0 && Gaps(answers[1..], most, left - 1)
  }

  /** `rounds` times k, as a sum. */
  function Rounds(k: nat, rounds: nat): nat {
    if rounds == 0 then 0 else Rounds(k, rounds - 1) + k
  }

  lemma {:induction false} RoundsIsProduct(k: nat, rounds: nat)
    ensures Rounds(k, rounds) == k * rounds
  {
    if rounds > 0 {
      RoundsIsProduct(k, rounds - 1);
      assert k * rounds == k * (rounds - 1) + k;
    }
  }

  lemma {:induction false} RoundsGrow(k: nat, fewer: nat, more: nat)
    requires fewer <= more
    ensures Rounds(k, fewer) <= Rounds(k, more)
  {
    if fewer < more { RoundsGrow(k, fewer, more - 1); }
  }

  lemma {:induction false} DrainWithin(n: nat, answers: seq<int>, most: nat, left: nat)
    requires n > 0 && Gaps(answers, most, left) && |answers| > Rounds(most + 1, n - 1) + left
    ensures Drain(n, answers).0 == 0 && Drain(n, answers).1 <= Rounds(most + 1, n - 1) + left + 1
    decreases answers
  {
    var w := WriteResult(answers[0], n);
    if w <= 0 {
      DrainWithin(n, answers[1..], most, left - 1);
    } else if w < n {
      RoundsGrow(most + 1, n - w, n - 1);
      DrainWithin(n - w, answers[1..], most, most);
    }
  }

  /** With at most `most` failures in a row, n bytes are out after at most (most + 1) * n calls. */
  lemma DrainBound(n: nat, answers: seq<int>, most: nat)
    requires Gaps(answers, most, most) && |answers| >= (most + 1) * n
    ensures Drain(n, answers).0 == 0 && Drain(n, answers).1 <= (most + 1) * n
  {
    if n > 0 {
      RoundsIsProduct(most + 1, n);
      DrainWithin(n, answers, most, most);
    }
  }

  /** The worst case: `most` failures before every single byte. */
  function Worst(n: nat, most: nat, left: nat): seq<int>
    decreases n, left
  {
    if n == 0 then [] else if left > 0 then [-1] + Worst(n, most, left - 1) else [1] + Worst(n - 1, most, most)
  }

  /** The bound is met. */
  lemma {:induction false} DrainBoundIsTight(n: nat, most: nat, left: nat)
    requires left <= most
    ensures Gaps(Worst(n, most, left), most, left)
    ensures n > 0 ==> Drain(n, Worst(n, most, left)) == (0, (most + 1) * (n - 1) + left + 1)
    decreases n, left
  {
    if n > 0 {
      if left > 0 {
        DrainBoundIsTight(n, most, left - 1);
        assert Worst(n, most, left)[1..] == Worst(n, most, left - 1);
      } else {
        DrainBoundIsTight(n - 1, most, most);
        assert Worst(n, most, left)[1..] == Worst(n - 1, most, most);
        if n > 1 { assert (most + 1) * (n - 1) == (most + 1) * (n - 2) + most + 1; }
      }
    }
  }

  // ---------------------------------------------------------------- copy.c

  const BUFSIZE := 4096

  /** The bytes left before the k-th read, if no read and write before it fails. */
  function Left(readAnswer: nat -> int, size: nat, k: nat): (left: nat)
    ensures left <= size
  {
    if k == 0 then size
    else
      var left := Left(readAnswer, size, k - 1);
      var n := ReadResult(readAnswer(k - 1), left, BUFSIZE);
      if n > 0 then left - n else left
  }

  /** What the k-th read returns then. */
  function Chunk(readAnswer: nat -> int, size: nat, k: nat): int {
    ReadResult(readAnswer(k), Left(readAnswer, size, k), BUFSIZE)
  }

  /** The loop gets to its k-th read: each read before it found bytes, and each write took them all. */
  predicate Reaches(readAnswer: nat -> int, writeAnswer: nat -> int, size: nat, k: nat) {
    forall j: nat | j < k :: Chunk(readAnswer, size, j) > 0 && writeAnswer(j) >= Chunk(readAnswer, size, j)
  }

  /** The k-th read fails, or the k-th write takes less than was read. */
  predicate FailsAt(readAnswer: nat -> int, writeAnswer: nat -> int, size: nat, k: nat) {
    readAnswer(k) < 0 || (Chunk(readAnswer, size, k) > 0 && writeAnswer(k) < Chunk(readAnswer, size, k))
  }

  lemma WriteComplete(readAnswer: nat -> int, writeAnswer: nat -> int, size: nat, k: nat)
    requires Reaches(readAnswer, writeAnswer, size, k)
    requires 0 < Chunk(readAnswer, size, k) <= writeAnswer(k)
    ensures Reaches(readAnswer, writeAnswer, size, k + 1)
    ensures Left(readAnswer, size, k + 1) == Left(readAnswer, size, k) - Chunk(readAnswer, size, k)
  {
  }

  /** A call that the loop really makes fails. */
  ghost predicate SomeCallFails(readAnswer: nat -> int, writeAnswer: nat -> int, size: nat) {
    exists k: nat :: Reaches(readAnswer, writeAnswer, size, k) && FailsAt(readAnswer, writeAnswer, size, k)
  }

  lemma StopsExactly(readAnswer: nat -> int, writeAnswer: nat -> int, size: nat, end: nat)
    requires Reaches(readAnswer, writeAnswer, size, end)
    ensures FailsAt(readAnswer, writeAnswer, size, end) ==> SomeCallFails(readAnswer, writeAnswer, size)
    ensures Chunk(readAnswer, size, end) == 0 ==> !SomeCallFails(readAnswer, writeAnswer, size)
  {
    if Chunk(readAnswer, size, end) == 0 {
      forall k: nat | Reaches(readAnswer, writeAnswer, size, k) ensures !FailsAt(readAnswer, writeAnswer, size, k) {
        if k < end { assert Chunk(readAnswer, size, k) > 0; }
      }
    }
  }

  predicate AllPrefixes(states: seq<seq<Byte>>, whole: seq<Byte>) {
    forall k | 0 <= k < |states| :: states[k] <= whole
  }

  lemma OneMorePrefix(states: seq<seq<Byte>>, next: seq<Byte>, whole: seq<Byte>)
    requires AllPrefixes(states, whole) && next <= whole
    ensures AllPrefixes(states + [next], whole)
  {
  }

  /**
   copy.c from its two opens on; the second one truncates the output file, which may be the input
   file.  `readAnswer` and `writeAnswer` answer the calls of each iteration.  `states` lists what the
   output file held after each write.
   */
  method Copy(infile: File, outfile: File, readAnswer: nat -> int, writeAnswer: nat -> int)
    returns (ok: bool, ghost states: seq<seq<Byte>>)
    modifies outfile
    ensures infile != outfile ==>
      && AllPrefixes(states, infile.contents)
      && outfile.contents <= infile.contents
      && (ok ==> outfile.contents == infile.contents)
    ensures infile == outfile ==> outfile.contents == []
    ensures ok ==> (outfile.contents == old(infile.contents) <==> infile != outfile || old(infile.contents) == [])
    ensures !ok <==> SomeCallFails(readAnswer, writeAnswer, |infile.contents|)
    ensures |states| <= |infile.contents|
  {
    outfile.contents := [];
    states := [];
    ghost var size := |infile.contents|;
    var buf := new Byte[BUFSIZE];
    var offset, i := 0, 0;
    var n := infile.Read(buf, offset, readAnswer(0));
    while n > 0
      invariant offset <= |infile.contents| == size
      invariant Left(readAnswer, size, i) == size - offset && Reaches(readAnswer, writeAnswer, size, i)
      invariant n == Chunk(readAnswer, size, i) && (n > 0 ==> buf[..n] == infile.contents[offset..offset + n])
      invariant infile == outfile ==> outfile.contents == []
      invariant infile != outfile ==> outfile.contents == infile.contents[..offset]
      invariant AllPrefixes(states, infile.contents)
      invariant |states| == i <= offset
      decreases |infile.contents| - offset
    {
      var nwrite := outfile.Write(buf, 0, n, writeAnswer(i));
      PrefixGrows(infile.contents, offset, buf[..], n, nwrite);
      OneMorePrefix(states, outfile.contents, infile.contents);
      states := states + [outfile.contents];
      if nwrite != n {
        StopsExactly(readAnswer, writeAnswer, size, i);
        return false, states;
      }
      WriteComplete(readAnswer, writeAnswer, size, i);
      offset, i := offset + n, i + 1;
      n := infile.Read(buf, offset, readAnswer(i));
    }
    ok := n == 0;
    StopsExactly(readAnswer, writeAnswer, size, i);
  }

  lemma PrefixGrows(whole: seq<Byte>, offset: nat, buf: seq<Byte>, n: nat, written: int)
    requires offset + n <= |whole| && n <= |buf| && buf[..n] == whole[offset..offset + n]
    requires written <= n
    ensures whole[..offset] + (if written > 0 then buf[0..written] else [])
         == whole[..if written > 0 then offset + written else offset]
  {
    if written > 0 {
      assert buf[0..written] == buf[..n][..written];
      assert whole[offset..offset + n][..written] == whole[offset..offset + written];
    }
  }
}
