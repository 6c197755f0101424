/** Cutting message texts for the log (agent/agent/llm/chunk.go, sender.go): chunks of at most 20000 bytes
    that never cut a UTF-8 character, numbered so that the receiver can put them together again. */
module LlmChunks {
  import opened Common

  newtype byte = x: int | 0 <= x < 256

  const MAX_CONTENT_BYTES := 20000

  // ---------------------------------------------------------------------------------------------
  // UTF-8, as in section 4 of RFC 3629.

  predicate IsTail(x: byte) { 0x80 <= x <= 0xBF }

  /** The length of the character at the start of `b`, 0 if there is none. */
  function CharLength(b: seq<byte>): nat {
    if |b| >= 1 && b[0] <= 0x7F then 1
    else if |b| >= 2 && 0xC2 <= b[0] <= 0xDF && IsTail(b[1]) then 2
    else if |b| >= 3 && IsTail(b[2]) && IsTriple(b[0], b[1]) then 3
    else if |b| >= 4 && IsTail(b[2]) && IsTail(b[3]) && IsQuadruple(b[0], b[1]) then 4
    else 0
  }

  predicate IsTriple(x: byte, y: byte) {
    || (x == 0xE0 && 0xA0 <= y <= 0xBF)
    || (0xE1 <= x <= 0xEC && IsTail(y))
    || (x == 0xED && 0x80 <= y <= 0x9F)
    || (0xEE <= x <= 0xEF && IsTail(y))
  }

  predicate IsQuadruple(x: byte, y: byte) {
    || (x == 0xF0 && 0x90 <= y <= 0xBF)
    || (0xF1 <= x <= 0xF3 && IsTail(y))
    || (x == 0xF4 && 0x80 <= y <= 0x8F)
  }

  predicate Utf8(b: seq<byte>)
    decreases |b|
  {
    b == [] || (CharLength(b) > 0 && Utf8(b[CharLength(b)..]))
  }

  lemma CharShape(b: seq<byte>)
    requires CharLength(b) > 0
    ensures CharLength(b) <= 4 && CharLength(b) <= |b| && !IsTail(b[0])
    ensures forall k :: 1 <= k < CharLength(b) ==> IsTail(b[k])
  {
  }

  lemma CharPrefix(b: seq<byte>, n: nat)
    requires 0 < CharLength(b) <= n <= |b|
    ensures CharLength(b[..n]) == CharLength(b)
  {
  }

  lemma Slices(b: seq<byte>, n: nat, p: nat)
    requires n <= p <= |b|
    ensures b[..p][n..] == b[n..][..p - n] && b[p..] == b[n..][p - n..]
  {
  }

  lemma BoundaryAfterFirst(b: seq<byte>, p: nat)
    requires CharLength(b) > 0 && 0 < p <= |b| && (p < |b| ==> !IsTail(b[p]))
    ensures CharLength(b) <= p
  {
    CharShape(b);
  }

  lemma Utf8Cons(b: seq<byte>, n: nat)
    requires 0 < n == CharLength(b) && n <= |b| && Utf8(b[n..])
    ensures Utf8(b)
  {
  }

  /** A text may be cut wherever the next byte is not a tail, and only the cut character's own bytes are
      tails: both parts are UTF-8 again. */
  lemma {:induction false} CutAtBoundary(b: seq<byte>, p: nat)
    requires Utf8(b) && p <= |b| && (p < |b| ==> !IsTail(b[p]))
    ensures Utf8(b[..p]) && Utf8(b[p..])
    decreases |b|
  {
    if p == 0 {
      assert b[0..] == b;
    } else {
      var n := CharLength(b);
      BoundaryAfterFirst(b, p);
      CutAtBoundary(b[n..], p - n);
      CharPrefix(b, p);
      Slices(b, n, p);
      Utf8Cons(b[..p], n);
    }
  }

  /** No more than three tails in a row, and none at the start. */
  lemma {:induction false} NearBoundary(b: seq<byte>, p: nat) returns (q: nat)
    requires Utf8(b) && p < |b|
    ensures p - 3 <= q <= p && !IsTail(b[q])
    decreases |b|
  {
    var n := CharLength(b);
    CharShape(b);
    if p < n {
      q := 0;
    } else {
      q := NearBoundary(b[n..], p - n);
      q := q + n;
    }
  }

  // ---------------------------------------------------------------------------------------------
  // Where a chunk ends.

  /** Steps back from `end` over tails, but not below `i`. */
  function BackOff(b: seq<byte>, i: nat, end: nat): (r: nat)
    requires i <= end < |b|
    ensures i <= r <= end
    ensures forall k :: r < k <= end ==> IsTail(b[k])
    ensures r == i || !IsTail(b[r])
    decreases end
  {
    if end > i && IsTail(b[end]) then BackOff(b, i, end - 1) else end
  }

  function ChunkEnd(b: seq<byte>, i: nat): (r: nat)
    requires i <= |b|
    ensures i <= r <= |b|
  {
    if i + MAX_CONTENT_BYTES >= |b| then |b| else BackOff(b, i, i + MAX_CONTENT_BYTES)
  }

  /** The loop makes no progress exactly before 20000 tails in a row. */
  lemma StallsExactlyBeforeTails(b: seq<byte>, i: nat)
    requires i < |b|
    ensures ChunkEnd(b, i) == i <==>
              i + MAX_CONTENT_BYTES < |b| && forall k :: i < k <= i + MAX_CONTENT_BYTES ==> IsTail(b[k])
  {
  }

  /** Texts on which the loop always makes progress; any byte string without 20000 tails in a row. */
  predicate NoLongTailRun(b: seq<byte>) {
    forall i :: 0 <= i < |b| - MAX_CONTENT_BYTES ==> !TailRun(b, i)
  }

  predicate TailRun(b: seq<byte>, i: nat)
    requires i + MAX_CONTENT_BYTES < |b|
  {
    forall k :: i < k <= i + MAX_CONTENT_BYTES ==> IsTail(b[k])
  }

  lemma Utf8HasNoLongTailRun(b: seq<byte>)
    requires Utf8(b)
    ensures NoLongTailRun(b)
  {
    forall i | 0 <= i < |b| - MAX_CONTENT_BYTES ensures !TailRun(b, i) {
      var q := NearBoundary(b, i + MAX_CONTENT_BYTES);
    }
  }

  /** Where the loop is after `n` rounds. */
  function Position(b: seq<byte>, n: nat): (i: nat)
    ensures i <= |b|
  {
    if n == 0 then 0 else ChunkEnd(b, Position(b, n - 1))
  }

  /** The loop is before the end of the text after `n` rounds and moves no further. */
  predicate StuckAfter(b: seq<byte>, n: nat) {
    Position(b, n) < |b| && Position(b, n + 1) == Position(b, n)
  }

  lemma FirstTail(b: seq<byte>, i: nat) returns (p: nat)
    requires i + MAX_CONTENT_BYTES < |b| && TailRun(b, i)
    ensures p <= i && TailRun(b, p) && (p == 0 || !IsTail(b[p]))
  {
    p := i;
    while p > 0 && IsTail(b[p])
      invariant p <= i && TailRun(b, p)
    {
      p := p - 1;
    }
  }

  /** From anywhere before a long run of tails the loop cannot jump over it. */
  lemma {:induction false} ReachesRun(b: seq<byte>, p: nat, n: nat) returns (m: nat)
    requires p + MAX_CONTENT_BYTES < |b| && TailRun(b, p) && Position(b, n) <= p
    ensures StuckAfter(b, m)
    decreases p - Position(b, n)
  {
    var i := Position(b, n);
    if ChunkEnd(b, i) == i {
      m := n;
    } else {
      assert i != p;
      assert Position(b, n + 1) == BackOff(b, i, i + MAX_CONTENT_BYTES);
      m := ReachesRun(b, p, n + 1);
    }
  }

  /** The loop hangs exactly on the texts with 20000 tails in a row after some byte. */
  lemma HangsExactlyOnLongTailRuns(b: seq<byte>)
    ensures (exists n :: StuckAfter(b, n)) <==> !NoLongTailRun(b)
  {
    if !NoLongTailRun(b) {
      var i :| 0 <= i < |b| - MAX_CONTENT_BYTES && TailRun(b, i);
      var p := FirstTail(b, i);
      var m := ReachesRun(b, p, 0);
    }
    if n :| StuckAfter(b, n) {
      StallsExactlyBeforeTails(b, Position(b, n));
      assert TailRun(b, Position(b, n));
    }
  }

  predicate GoodSizes(chunks: seq<seq<byte>>) {
    forall k :: 0 <= k < |chunks| ==> 0 < |chunks[k]| <= MAX_CONTENT_BYTES
  }

  /** Each chunk is UTF-8 and nearly full. */
  predicate GoodTexts(chunks: seq<seq<byte>>) {
    forall k :: 0 <= k < |chunks| ==> Utf8(chunks[k]) && |chunks[k]| >= MAX_CONTENT_BYTES - 3
  }

  /** The back-off stops at most three bytes before the limit, at the start of a character. */
  lemma NearlyFull(b: seq<byte>, i: nat)
    requires i < |b| && Utf8(b[i..]) && ChunkEnd(b, i) < |b|
    ensures ChunkEnd(b, i) - i >= MAX_CONTENT_BYTES - 3 && !IsTail(b[ChunkEnd(b, i)])
  {
    var q := NearBoundary(b[i..], MAX_CONTENT_BYTES);
    assert b[i..][q] == b[i + q];
    assert ChunkEnd(b, i) >= i + q;
  }

  /** One chunk of a UTF-8 text: it is UTF-8, the rest is too, and it is nearly full unless it is the last. */
  lemma ChunkIsGood(b: seq<byte>, i: nat)
    requires i < |b| && Utf8(b[i..])
    ensures var end := ChunkEnd(b, i);
            && Utf8(b[i..end]) && Utf8(b[end..])
            && (end < |b| ==> end - i >= MAX_CONTENT_BYTES - 3)
  {
    var end := ChunkEnd(b, i);
    if end < |b| {
      NearlyFull(b, i);
    }
    CutWithin(b, i, end);
  }

  lemma SlicesWithin(b: seq<byte>, i: nat, end: nat)
    requires i <= end <= |b|
    ensures b[i..][..end - i] == b[i..end] && b[i..][end - i..] == b[end..]
    ensures end < |b| ==> b[i..][end - i] == b[end]
  {
  }

  lemma CutWithin(b: seq<byte>, i: nat, end: nat)
    requires i <= end <= |b| && Utf8(b[i..]) && (end < |b| ==> !IsTail(b[end]))
    ensures Utf8(b[i..end]) && Utf8(b[end..])
  {
    SlicesWithin(b, i, end);
    CutAtBoundary(b[i..], end - i);
  }

  /** The chunks cut so far, up to position `i`. */
  predicate ChunksUpTo(b: seq<byte>, i: nat, chunks: seq<seq<byte>>)
    requires i <= |b|
  {
    && Flatten(chunks) == b[..i] && GoodSizes(chunks) && (i > 0 <==> chunks != [])
    && (Utf8(b) ==>
          && Utf8(b[i..])
          && (i < |b| ==> GoodTexts(chunks))
          && (chunks != [] ==> GoodTexts(Init(chunks)) && Utf8(Last(chunks))))
  }

  lemma NextChunk(b: seq<byte>, i: nat, chunks: seq<seq<byte>>)
    requires i < |b| && ChunksUpTo(b, i, chunks) && ChunkEnd(b, i) > i
    ensures ChunksUpTo(b, ChunkEnd(b, i), chunks + [b[i..ChunkEnd(b, i)]])
  {
    var end := ChunkEnd(b, i);
    var chunks' := chunks + [b[i..end]];
    assert chunks'[..|chunks|] == chunks;
    assert b[..i] + b[i..end] == b[..end];
    if Utf8(b) {
      ChunkIsGood(b, i);
    }
  }

  /** The end of the chunk that starts at `i`. */
  method FindChunkEnd(b: seq<byte>, i: nat) returns (end: nat)
    requires i < |b|
    ensures end == ChunkEnd(b, i)
  {
    end := i + MAX_CONTENT_BYTES;
    if end > |b| {
      end := |b|;
    }
    if end < |b| {
      while end > i && IsTail(b[end])
        invariant i <= end <= i + MAX_CONTENT_BYTES < |b|
        invariant ChunkEnd(b, i) == BackOff(b, i, end)
      {
        end := end - 1;
      }
    }
  }

  /** Cuts a text.  For any bytes on which it terminates the chunks are nonempty, at most 20000 bytes long
      and make up the text; for UTF-8 they are UTF-8 themselves and all but the last have at least 19997
      bytes. */
  method SplitContent(b: seq<byte>) returns (chunks: seq<seq<byte>>)
    requires NoLongTailRun(b)
    ensures Flatten(chunks) == b && GoodSizes(chunks)
    ensures b == [] <==> chunks == []
    ensures Utf8(b) && chunks != [] ==> GoodTexts(Init(chunks)) && Utf8(Last(chunks))
  {
    if b == [] {
      return [];
    }
    if |b| <= MAX_CONTENT_BYTES {
      assert [b][..0] == [];
      return [b];
    }
    chunks := [];
    var i := 0;
    assert b[0..] == b;
    while i < |b|
      invariant i <= |b| && ChunksUpTo(b, i, chunks)
    {
      var end := FindChunkEnd(b, i);
      if i + MAX_CONTENT_BYTES < |b| {
        assert !TailRun(b, i);
      }
      StallsExactlyBeforeTails(b, i);
      NextChunk(b, i, chunks);
      chunks := chunks + [b[i..end]];
      i := end;
    }
    assert b[..i] == b;
  }

  // ---------------------------------------------------------------------------------------------
  // Sending and putting together.

  /** A log line; the two numbers are there only when a text has several chunks. */
  datatype LineLog = LineLog(content: seq<byte>, chunkIndex: Option<int>, chunkTotal: Option<int>)

  function BuildMessage(content: seq<byte>, index: int, total: int): LineLog {
    if total > 1 then LineLog(content, Some(index), Some(total)) else LineLog(content, None, None)
  }

  function Messages(chunks: seq<seq<byte>>): seq<LineLog> {
    if chunks == [] then [BuildMessage([], 0, 1)]
    else seq(|chunks|, i requires 0 <= i < |chunks| => BuildMessage(chunks[i], i, |chunks|))
  }

  /** The content of the line numbered `k`. */
  function Pick(lines: seq<LineLog>, k: int): seq<byte> {
    if lines == [] then []
    else if lines[0].chunkIndex == Some(k) then lines[0].content
    else Pick(lines[1..], k)
  }

  function PickUpTo(lines: seq<LineLog>, n: nat): seq<byte> {
    if n == 0 then [] else PickUpTo(lines, n - 1) + Pick(lines, n - 1)
  }

  /** What a receiver makes of the lines of one message, in whatever order they came. */
  function Rebuild(lines: seq<LineLog>): seq<byte> {
    if lines == [] then []
    else if lines[0].chunkTotal.None? then lines[0].content
    else PickUpTo(lines, if lines[0].chunkTotal.value >= 0 then lines[0].chunkTotal.value else 0)
  }

  lemma {:induction false} PickFinds(lines: seq<LineLog>, k: int, content: seq<byte>)
    requires exists l :: l in lines && l.chunkIndex == Some(k)
    requires forall l :: l in lines && l.chunkIndex == Some(k) ==> l.content == content
    ensures Pick(lines, k) == content
    decreases |lines|
  {
    if lines[0].chunkIndex != Some(k) {
      PickFinds(lines[1..], k, content);
    }
  }

  lemma {:induction false} PickUpToFinds(lines: seq<LineLog>, chunks: seq<seq<byte>>, n: nat)
    requires n <= |chunks|
    requires forall k :: 0 <= k < |chunks| ==> Pick(lines, k) == chunks[k]
    ensures PickUpTo(lines, n) == Flatten(chunks[..n])
  {
    if n > 0 {
      PickUpToFinds(lines, chunks, n - 1);
      assert chunks[..n][..n - 1] == chunks[..n - 1];
    }
  }

  lemma SameElements(a: seq<LineLog>, b: seq<LineLog>)
    requires multiset(a) == multiset(b)
    ensures |a| == |b| && forall l :: l in a <==> l in b
  {
    assert |a| == |multiset(a)| && |b| == |multiset(b)|;
    forall l ensures l in a <==> l in b {
      assert l in a <==> l in multiset(a);
      assert l in b <==> l in multiset(b);
    }
  }

  lemma MessageShape(chunks: seq<seq<byte>>, l: LineLog)
    requires |chunks| > 1 && l in Messages(chunks)
    ensures l.chunkTotal == Some(|chunks|) && l.chunkIndex.Some? && 0 <= l.chunkIndex.value < |chunks|
    ensures l.content == chunks[l.chunkIndex.value]
  {
  }

  lemma RebuildOne(chunks: seq<seq<byte>>, lines: seq<LineLog>)
    requires |chunks| <= 1 && multiset(lines) == multiset(Messages(chunks))
    ensures Rebuild(lines) == Flatten(chunks)
  {
    SameElements(lines, Messages(chunks));
    assert lines[0] in Messages(chunks);
    if chunks != [] {
      assert chunks[..0] == [] && Flatten(chunks) == [] + chunks[0];
    }
  }

  /** The message survives any reordering of its lines. */
  lemma ReorderedLinesRebuild(chunks: seq<seq<byte>>, lines: seq<LineLog>)
    requires multiset(lines) == multiset(Messages(chunks))
    ensures Rebuild(lines) == Flatten(chunks)
  {
    if |chunks| <= 1 {
      RebuildOne(chunks, lines);
    } else {
      SameElements(lines, Messages(chunks));
      MessageShape(chunks, lines[0]);
      forall k | 0 <= k < |chunks| ensures Pick(lines, k) == chunks[k] {
        forall l | l in lines && l.chunkIndex == Some(k) ensures l.content == chunks[k] {
          MessageShape(chunks, l);
        }
        assert Messages(chunks)[k] in lines;
        PickFinds(lines, k, chunks[k]);
      }
      PickUpToFinds(lines, chunks, |chunks|);
      assert chunks[..|chunks|] == chunks;
    }
  }

  /** Whatever order the lines arrive in, the receiver has the message. */
  ghost predicate Recoverable(sent: seq<LineLog>, b: seq<byte>) {
    forall lines: seq<LineLog> :: multiset(lines) == multiset(sent) ==> Rebuild(lines) == b
  }

  lemma MessagesRecover(chunks: seq<seq<byte>>)
    ensures Recoverable(Messages(chunks), Flatten(chunks))
  {
    forall lines: seq<LineLog> | multiset(lines) == multiset(Messages(chunks))
      ensures Rebuild(lines) == Flatten(chunks)
    {
      ReorderedLinesRebuild(chunks, lines);
    }
  }

  predicate GoodLines(lines: seq<LineLog>, utf8: bool) {
    forall k :: 0 <= k < |lines| ==> |lines[k].content| <= MAX_CONTENT_BYTES && (utf8 ==> Utf8(lines[k].content))
  }

  lemma MessagesAreGood(chunks: seq<seq<byte>>, utf8: bool)
    requires GoodSizes(chunks)
    requires utf8 && chunks != [] ==> GoodTexts(Init(chunks)) && Utf8(Last(chunks))
    ensures GoodLines(Messages(chunks), utf8)
  {
  }

  /** Sends a message as lines of bounded size, each valid UTF-8 if the message is, from which it can be put
      together again. */
  method SendChunked(b: seq<byte>) returns (sent: seq<LineLog>)
    requires NoLongTailRun(b)
    ensures Recoverable(sent, b)
    ensures GoodLines(sent, Utf8(b))
  {
    var chunks := SplitContent(b);
    MessagesRecover(chunks);
    MessagesAreGood(chunks, Utf8(b));
    if |chunks| == 0 {
      return [BuildMessage([], 0, 1)];
    }
    sent := [];
    for i := 0 to |chunks|
      invariant sent == Messages(chunks)[..i]
    {
      sent := sent + [BuildMessage(chunks[i], i, |chunks|)];
    }
    assert Messages(chunks)[..|chunks|] == Messages(chunks);
  }
}
