/** Splitting an upload into ordered chunks before it is queued. */
module Chunking {

  type Byte = b: int | 0 <= b < 256
  type Bytes = seq<Byte>

  const NEWLINE: Byte := 10

  /** Position of the last newline among the first `n` bytes, or -1. */
  function LastNewline(audio: Bytes, n: nat): (i: int)
    requires n <= |audio|
    ensures -1 <= i < n
    ensures i >= 0 ==> audio[i] == NEWLINE
    ensures forall j :: i < j < n && j >= 0 ==> audio[j] != NEWLINE
  {
    if n == 0 then -1 else if audio[n - 1] == NEWLINE then n - 1 else LastNewline(audio, n - 1)
  }

  /** Where the next piece of an over-long text ends: after the last newline within the
      limit, or at the limit itself. */
  function SplitAt(audio: Bytes, limit: nat): nat
    requires limit < |audio|
  {
    var at := LastNewline(audio, limit) + 1;
    if at == 0 then limit else at
  }

  function TextPieces(audio: Bytes, limit: nat): seq<Bytes>
    requires limit >= 1
    decreases |audio|
  {
    if |audio| == 0 then []
    else if |audio| <= limit then [audio]
    else [audio[..SplitAt(audio, limit)]] + TextPieces(audio[SplitAt(audio, limit)..], limit)
  }

  function BinaryPieces(audio: Bytes, limit: nat): seq<Bytes>
    requires limit >= 1
    decreases |audio|
  {
    if |audio| == 0 then []
    else if |audio| <= limit then [audio]
    else [audio[..limit]] + BinaryPieces(audio[limit..], limit)
  }

  function Joined(pieces: seq<Bytes>): Bytes {
    if pieces == [] then [] else pieces[0] + Joined(pieces[1..])
  }

  /** The chunks of an upload; `audioLike` is the verdict of the container sniffer. */
  method Chunk(upload: Bytes, limit: nat, audioLike: bool) returns (chunks: seq<Bytes>)
    requires limit >= 1
    ensures upload == [] ==> chunks == [[]]
    ensures upload != [] ==> chunks == if audioLike then BinaryPieces(upload, limit) else TextPieces(upload, limit)
    ensures Joined(chunks) == upload
    ensures upload != [] ==> forall k :: 0 <= k < |chunks| ==> 1 <= |chunks[k]| <= limit
    ensures audioLike ==> Full(chunks, limit)
    ensures upload != [] && !audioLike ==> LatestCuts(chunks, limit)
  {
    if |upload| <= limit {
      chunks := [upload];
      assert Joined(chunks[1..]) == [];
      return;
    }
    if audioLike {
      chunks := ChunkBinary(upload, limit);
      BinaryPiecesAreSound(upload, limit);
      BinaryPiecesAreFull(upload, limit);
    } else {
      chunks := ChunkText(upload, limit);
      TextPiecesAreSound(upload, limit);
      TextCutsAreLatest(upload, limit);
    }
  }

  /** Binary audio: cut every `limit` bytes. */
  method ChunkBinary(upload: Bytes, limit: nat) returns (chunks: seq<Bytes>)
    requires limit >= 1
    ensures chunks == BinaryPieces(upload, limit)
  {
    var audio := upload;
    chunks := [];
    while audio != []
      invariant chunks + BinaryPieces(audio, limit) == BinaryPieces(upload, limit)
      decreases |audio|
    {
      var n := if limit < |audio| then limit else |audio|;
      assert |audio| <= limit ==> audio[..n] == audio && audio[n..] == [];
      Moved(chunks, audio[..n], BinaryPieces(audio[n..], limit));
      chunks := chunks + [audio[..n]];
      audio := audio[n..];
    }
  }

  /** Text: cut after the last newline within the limit, or at the limit. */
  method ChunkText(upload: Bytes, limit: nat) returns (chunks: seq<Bytes>)
    requires limit >= 1
    ensures chunks == TextPieces(upload, limit)
  {
    var audio := upload;
    chunks := [];
    while audio != []
      invariant chunks + TextPieces(audio, limit) == TextPieces(upload, limit)
      decreases |audio|
    {
      if |audio| <= limit {
        chunks := chunks + [audio];
        break;
      }
      var splitAt := LastNewline(audio, limit) + 1;
      if splitAt == 0 {
        splitAt := limit;
      }
      Moved(chunks, audio[..splitAt], TextPieces(audio[splitAt..], limit));
      chunks := chunks + [audio[..splitAt]];
      audio := audio[splitAt..];
    }
  }

  lemma Moved(done: seq<Bytes>, piece: Bytes, rest: seq<Bytes>)
    ensures done + ([piece] + rest) == (done + [piece]) + rest
  {
  }

  predicate Sized(pieces: seq<Bytes>, limit: nat) {
    forall k :: 0 <= k < |pieces| ==> 1 <= |pieces[k]| <= limit
  }

  lemma OneMorePiece(piece: Bytes, rest: seq<Bytes>, limit: nat)
    requires 1 <= |piece| <= limit && Sized(rest, limit)
    ensures Joined([piece] + rest) == piece + Joined(rest) && Sized([piece] + rest, limit)
  {
    assert ([piece] + rest)[1..] == rest;
  }

  lemma {:induction false} TextPiecesAreSound(audio: Bytes, limit: nat)
    requires limit >= 1
    ensures var ps := TextPieces(audio, limit);
            Joined(ps) == audio && Sized(ps, limit)
    decreases |audio|
  {
    if 0 < |audio| <= limit {
      assert Joined([audio][1..]) == [];
    } else if |audio| > limit {
      var n := SplitAt(audio, limit);
      TextPiecesAreSound(audio[n..], limit);
      OneMorePiece(audio[..n], TextPieces(audio[n..], limit), limit);
      assert audio[..n] + audio[n..] == audio;
    }
  }

  lemma {:induction false} BinaryPiecesAreSound(audio: Bytes, limit: nat)
    requires limit >= 1
    ensures var ps := BinaryPieces(audio, limit);
            Joined(ps) == audio && Sized(ps, limit)
    decreases |audio|
  {
    if 0 < |audio| <= limit {
      assert Joined([audio][1..]) == [];
    } else if |audio| > limit {
      BinaryPiecesAreSound(audio[limit..], limit);
      OneMorePiece(audio[..limit], BinaryPieces(audio[limit..], limit), limit);
      assert audio[..limit] + audio[limit..] == audio;
    }
  }

  /* ----- where the cuts are ----- */

  /** Every piece but the last is as long as it may be. */
  predicate Full(pieces: seq<Bytes>, limit: nat) {
    forall k :: 0 <= k < |pieces| - 1 ==> |pieces[k]| == limit
  }

  lemma {:induction false} BinaryPiecesAreFull(audio: Bytes, limit: nat)
    requires limit >= 1
    ensures Full(BinaryPieces(audio, limit), limit)
    decreases |audio|
  {
    if |audio| > limit {
      var rest := BinaryPieces(audio[limit..], limit);
      BinaryPiecesAreFull(audio[limit..], limit);
      assert BinaryPieces(audio, limit) == [audio[..limit]] + rest;
    }
  }

  /** Binary audio is cut into the fewest pieces the limit allows. */
  lemma FewestBinaryPieces(audio: Bytes, limit: nat, pieces: seq<Bytes>)
    requires limit >= 1 && Joined(pieces) == audio && forall k :: 0 <= k < |pieces| ==> |pieces[k]| <= limit
    ensures |BinaryPieces(audio, limit)| <= |pieces|
  {
    var ps := BinaryPieces(audio, limit);
    BinaryPiecesAreSound(audio, limit);
    BinaryPiecesAreFull(audio, limit);
    JoinedIsShort(pieces, limit);
    if ps != [] {
      FullIsLong(ps, limit);
      if |pieces| <= |ps| - 1 {
        Monotone(limit, |pieces|, |ps| - 1);
      }
    }
  }

  lemma Monotone(limit: nat, a: nat, b: nat)
    requires a <= b
    ensures limit * a <= limit * b
  {
    assert limit * b == limit * a + limit * (b - a);
  }

  lemma {:induction false} JoinedIsShort(pieces: seq<Bytes>, limit: nat)
    requires forall k :: 0 <= k < |pieces| ==> |pieces[k]| <= limit
    ensures |Joined(pieces)| <= limit * |pieces|
  {
    if pieces != [] {
      JoinedIsShort(pieces[1..], limit);
      assert limit * |pieces| == limit * |pieces[1..]| + limit;
    }
  }

  lemma {:induction false} FullIsLong(pieces: seq<Bytes>, limit: nat)
    requires pieces != [] && Full(pieces, limit) && Sized(pieces, limit)
    ensures |Joined(pieces)| > limit * (|pieces| - 1)
  {
    if |pieces| > 1 {
      FullIsLong(pieces[1..], limit);
      assert limit * (|pieces| - 1) == limit * (|pieces[1..]| - 1) + limit;
    }
  }

  /** Where over-long text is cut: after a newline with none between it and the limit, or at the
      limit, if there is none at all before it. The rest is not cut once it fits. */
  predicate LatestCuts(pieces: seq<Bytes>, limit: nat)
    decreases |pieces|
  {
    || pieces == []
    || (|pieces| == 1 && 1 <= |pieces[0]| <= limit)
    || (LatestCut(pieces[0], Joined(pieces), limit) && LatestCuts(pieces[1..], limit))
  }

  predicate LatestCut(piece: Bytes, text: Bytes, limit: nat) {
    && 1 <= |piece| <= limit < |text|
    && (piece[|piece| - 1] == NEWLINE || (|piece| == limit && NEWLINE !in piece))
    && (forall j :: |piece| <= j < limit ==> text[j] != NEWLINE)
  }

  lemma SplitIsLatest(audio: Bytes, limit: nat)
    requires 1 <= limit < |audio|
    ensures LatestCut(audio[..SplitAt(audio, limit)], audio, limit)
  {
    var n := SplitAt(audio, limit);
    assert forall j :: 0 <= j < n ==> audio[..n][j] == audio[j];
  }

  lemma {:induction false} TextCutsAreLatest(audio: Bytes, limit: nat)
    requires limit >= 1
    ensures LatestCuts(TextPieces(audio, limit), limit)
    decreases |audio|
  {
    if |audio| > limit {
      TextPiecesAreSound(audio, limit);
      SplitIsLatest(audio, limit);
      TextCutsAreLatest(audio[SplitAt(audio, limit)..], limit);
      assert TextPieces(audio, limit)[1..] == TextPieces(audio[SplitAt(audio, limit)..], limit);
    }
  }

  lemma LatestCutIsTheSplit(piece: Bytes, rest: Bytes, limit: nat)
    requires LatestCut(piece, piece + rest, limit)
    ensures |piece| == SplitAt(piece + rest, limit)
  {
    var text := piece + rest;
    var n := LastNewline(text, limit);
    assert forall j :: 0 <= j < |piece| ==> text[j] == piece[j] && text[j] in piece;
  }

  /** No other partition of a text is cut like that. */
  lemma {:induction false} LatestCutsAreUnique(pieces: seq<Bytes>, limit: nat)
    requires limit >= 1 && LatestCuts(pieces, limit)
    ensures pieces == TextPieces(Joined(pieces), limit)
    decreases |pieces|
  {
    if |pieces| == 1 && |pieces[0]| <= limit {
      assert Joined(pieces[1..]) == [] && Joined(pieces) == pieces[0];
      assert pieces == [pieces[0]];
    } else if pieces != [] {
      var p, rest := pieces[0], Joined(pieces[1..]);
      LatestCutsAreUnique(pieces[1..], limit);
      assert Joined(pieces) == p + rest;
      LatestCutIsTheSplit(p, rest, limit);
      assert (p + rest)[..|p|] == p && (p + rest)[|p|..] == rest;
    }
  }

  /* ----- line-aligned partitions ----- */

  /** Non-empty pieces within the limit, every one but the last ending in a newline. */
  ghost predicate LineAligned(pieces: seq<Bytes>, limit: nat) {
    forall k :: 0 <= k < |pieces| ==>
      && 1 <= |pieces[k]| <= limit
      && (k < |pieces| - 1 ==> pieces[k][|pieces[k]| - 1] == NEWLINE)
  }

  /** One of the `limit` bytes from position `i` on is a newline. */
  predicate BreakWithin(audio: Bytes, i: nat, limit: nat) {
    exists j :: i <= j < i + limit && j < |audio| && audio[j] == NEWLINE
  }

  /** No line is longer than the limit: any `limit` bytes with more to follow hold a newline. */
  ghost predicate LinesFit(audio: Bytes, limit: nat) {
    forall i: nat :: i + limit < |audio| ==> BreakWithin(audio, i, limit)
  }

  lemma Resplit(audio: Bytes, m: nat, g: nat)
    requires m <= g <= |audio|
    ensures audio[m..] == audio[m..g] + audio[g..]
  {
  }

  /** Any line-aligned partition of `gap + audio` needs at least as many pieces as the
      chunker makes of `audio` alone: cutting as late as possible never falls behind. */
  lemma {:induction false} GreedyStaysAhead(gap: Bytes, audio: Bytes, limit: nat, pieces: seq<Bytes>)
    requires limit >= 1 && LineAligned(pieces, limit) && Joined(pieces) == gap + audio
    ensures |TextPieces(audio, limit)| <= |pieces|
    decreases |pieces|
  {
    if audio == [] {
    } else {
      assert pieces != [];
      var p, rest := pieces[0], pieces[1..];
      assert LineAligned(rest, limit);
      assert Joined(pieces) == p + Joined(rest);
      if |p| <= |gap| {
        Cancel(p, Joined(rest), gap, audio);
        assert Joined(rest) == gap[|p|..] + audio;
        GreedyStaysAhead(gap[|p|..], audio, limit, rest);
      } else if |audio| > limit {
        var m := |p| - |gap|;
        var g := SplitAt(audio, limit);
        Cancel(gap, audio, p, Joined(rest));
        assert Joined(rest) == audio[m..];
        assert rest != [] by { assert |audio[m..]| > 0; }
        assert p[|p| - 1] == NEWLINE && audio[m - 1] == p[|p| - 1];
        assert m <= g;
        Resplit(audio, m, g);
        GreedyStaysAhead(audio[m..g], audio[g..], limit, rest);
      }
    }
  }

  /** From `a + b == c + d` with `a` no longer than `c`, `b` is the rest of `c` then `d`. */
  lemma Cancel(a: Bytes, b: Bytes, c: Bytes, d: Bytes)
    requires a + b == c + d && |a| <= |c|
    ensures b == c[|a|..] + d
    ensures a == c[..|a|]
    ensures forall k :: |a| <= k < |c| && k - |a| < |b| ==> b[k - |a|] == c[k]
    ensures |b| >= |c| - |a| && d == b[|c| - |a|..]
  {
    assert b == (a + b)[|a|..];
    assert (c + d)[|a|..] == c[|a|..] + d;
    assert a == (a + b)[..|a|] == (c + d)[..|a|];
  }

  /** When every line fits, all cuts fall just after newlines. */
  lemma {:induction false} FittingLinesAreAligned(audio: Bytes, limit: nat)
    requires limit >= 1 && LinesFit(audio, limit)
    ensures LineAligned(TextPieces(audio, limit), limit)
    decreases |audio|
  {
    if |audio| > limit {
      var n := SplitAt(audio, limit);
      assert BreakWithin(audio, 0, limit);
      forall i: nat | i + limit < |audio[n..]| ensures BreakWithin(audio[n..], i, limit) {
        assert BreakWithin(audio, i + n, limit);
        var j :| i + n <= j < i + n + limit && j < |audio| && audio[j] == NEWLINE;
        assert audio[n..][j - n] == NEWLINE;
      }
      FittingLinesAreAligned(audio[n..], limit);
    }
  }

  /** And they are the fewest: a line-aligned partition exists exactly when every line fits,
      and then the chunker's is one with the least number of pieces. */
  lemma ChunkerIsOptimal(audio: Bytes, limit: nat, pieces: seq<Bytes>)
    requires limit >= 1 && LineAligned(pieces, limit) && Joined(pieces) == audio
    ensures LinesFit(audio, limit)
    ensures LineAligned(TextPieces(audio, limit), limit)
    ensures |TextPieces(audio, limit)| <= |pieces|
  {
    AlignedMeansFitting(audio, limit, pieces);
    FittingLinesAreAligned(audio, limit);
    assert [] + audio == audio;
    GreedyStaysAhead([], audio, limit, pieces);
  }

  lemma {:induction false} AlignedMeansFitting(audio: Bytes, limit: nat, pieces: seq<Bytes>)
    requires limit >= 1 && LineAligned(pieces, limit) && Joined(pieces) == audio
    ensures LinesFit(audio, limit)
    decreases |pieces|
  {
    if pieces != [] {
      var p, rest := pieces[0], pieces[1..];
      assert LineAligned(rest, limit);
      assert audio == p + Joined(rest) && audio[|p|..] == Joined(rest);
      AlignedMeansFitting(audio[|p|..], limit, rest);
      forall i: nat | i + limit < |audio| ensures BreakWithin(audio, i, limit) {
        if i < |p| {
          assert rest != [];
          assert audio[|p| - 1] == NEWLINE;
        } else {
          assert BreakWithin(audio[|p|..], i - |p|, limit);
          var j :| i - |p| <= j < i - |p| + limit && j < |audio[|p|..]| && audio[|p|..][j] == NEWLINE;
          assert audio[j + |p|] == NEWLINE;
        }
      }
    }
  }

  /** An iteration of the text loop takes something off the text exactly when the limit is
      positive: with a limit of zero the loop would not end. */
  lemma ProgressIffPositiveLimit(audio: Bytes, limit: nat)
    requires limit < |audio|
    ensures |audio[SplitAt(audio, limit)..]| < |audio| <==> limit >= 1
  {
    if limit == 0 {
      assert LastNewline(audio, 0) == -1;
    }
  }
}
