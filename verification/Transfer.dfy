/** Moving a file as chunks that carry their offset, and a terminator that carries a signature. */
module Transfer {
  import opened Optional

  type Bytes = seq<bv8>

  /** The signature of a file's bytes.  Nothing is assumed of it. */
  type Signer = Bytes -> string

  const CHUNK_BYTES: nat := 512 * 1024

  datatype Chunk = Chunk(offset: nat, data: Bytes, last: bool, contentSig: string)

  /** What comes down a stream: a chunk, or the error that ends it. */
  datatype Item = Sent(chunk: Chunk) | Broken

  function DataOf(chunks: seq<Chunk>): Bytes {
    if chunks == [] then [] else DataOf(chunks[..|chunks| - 1]) + chunks[|chunks| - 1].data
  }

  /** A piece of a file, where it says it is. */
  predicate PieceOf(c: Chunk, file: Bytes) {
    && !c.last && 0 < |c.data| <= CHUNK_BYTES
    && c.offset + |c.data| <= |file| && c.data == file[c.offset..c.offset + |c.data|]
  }

  function Terminator(file: Bytes, sign: Signer): Chunk { Chunk(|file|, [], true, sign(file)) }

  /** Pieces that follow on from one another, from the start of the file. */
  predicate Consecutive(body: seq<Chunk>, file: Bytes) {
    forall k | 0 <= k < |body| :: PieceOf(body[k], file) && body[k].offset == |DataOf(body[..k])|
  }

  /** The pieces of a whole file, then the terminator. */
  predicate Whole(sent: seq<Chunk>, file: Bytes, sign: Signer) {
    && sent != [] && sent[|sent| - 1] == Terminator(file, sign)
    && Consecutive(sent[..|sent| - 1], file) && DataOf(sent[..|sent| - 1]) == file
  }

  function Chunks(items: seq<Item>): (cs: seq<Chunk>)
    requires Broken !in items
    ensures |cs| == |items|
  {
    if items == [] then [] else Chunks(items[..|items| - 1]) + [items[|items| - 1].chunk]
  }

  lemma FirstPieces(body: seq<Chunk>, file: Bytes)
    requires Consecutive(body, file) && body != []
    ensures Consecutive(body[..|body| - 1], file)
  {
    var most := body[..|body| - 1];
    forall k | 0 <= k < |most| ensures PieceOf(most[k], file) && most[k].offset == |DataOf(most[..k])| {
      assert most[..k] == body[..k] && most[k] == body[k];
    }
  }

  lemma {:induction false} ConsecutiveIsAPrefix(body: seq<Chunk>, file: Bytes)
    requires Consecutive(body, file)
    ensures |DataOf(body)| <= |file| && DataOf(body) == file[..|DataOf(body)|]
  {
    if body != [] {
      var n := |body| - 1;
      FirstPieces(body, file);
      ConsecutiveIsAPrefix(body[..n], file);
      var before := |DataOf(body[..n])|;
      assert PieceOf(body[n], file) && body[n].offset == before;
      assert file[..before] + file[before..before + |body[n].data|] == file[..before + |body[n].data|];
    }
  }

  lemma OneMorePiece(body: seq<Chunk>, file: Bytes, c: Chunk)
    requires Consecutive(body, file) && PieceOf(c, file) && c.offset == |DataOf(body)|
    ensures Consecutive(body + [c], file) && DataOf(body + [c]) == DataOf(body) + c.data
  {
    var more := body + [c];
    assert more[..|body|] == body;
    forall k | 0 <= k < |more| ensures PieceOf(more[k], file) && more[k].offset == |DataOf(more[..k])| {
      if k < |body| { assert more[..k] == body[..k] && more[k] == body[k]; }
    }
  }

  lemma ThatWasAll(body: seq<Chunk>, file: Bytes, sign: Signer)
    requires Consecutive(body, file) && |DataOf(body)| == |file|
    ensures Whole(body + [Terminator(file, sign)], file, sign)
  {
    ConsecutiveIsAPrefix(body, file);
    assert (body + [Terminator(file, sign)])[..|body|] == body;
    assert file[..|file|] == file;
  }

  /** Read a file and produce its chunks, however short the reads are; a read that fails ends the stream
   *  without a terminator.
   */
  method SourceStream(file: Bytes, lengths: nat -> nat, fails: nat -> bool, sign: Signer)
    returns (sent: seq<Chunk>, broken: bool)
    ensures !broken ==> Whole(sent, file, sign)
    ensures broken ==> Consecutive(sent, file) && fails(|DataOf(sent)|)
    ensures broken ==> forall c | c in sent :: !c.last
  {
    sent := [];
    var offset := 0;
    while true
      invariant offset == |DataOf(sent)| <= |file| && Consecutive(sent, file)
      decreases |file| - offset
    {
      if fails(offset) {
        return sent, true;
      }
      var most := if |file| - offset < CHUNK_BYTES then |file| - offset else CHUNK_BYTES;
      var read := if lengths(offset) < 1 then 1 else lengths(offset);
      read := if read < most then read else most;
      if read == 0 {
        ThatWasAll(sent, file, sign);
        return sent + [Chunk(offset, [], true, sign(file))], false;
      }
      var chunk := Chunk(offset, file[offset..offset + read], false, "");
      OneMorePiece(sent, file, chunk);
      sent := sent + [chunk];
      offset := offset + read;
    }
  }

  // ---- Receiving

  datatype Received = Received(bytes: Bytes, finished: bool)

  datatype Verdict = More | Complete | Refused

  /** Whether the disk does as it is told, when it is. */
  datatype DiskAnswer = DiskAnswer(writes: bool, syncs: bool)

  function Accepted(r: Received, c: Chunk, disk: DiskAnswer, sign: Signer): (Received, Verdict) {
    if r.finished || c.offset != |r.bytes| then (r, Refused)
    else if c.data != [] && !disk.writes then (r, Refused)
    else
      var grown := r.(bytes := r.bytes + c.data);
      if !c.last then (grown, More)
      else if !disk.syncs || sign(grown.bytes) != c.contentSig then (grown, Refused)
      else (grown.(finished := true), Complete)
  }

  /** A chunk completes a transfer exactly if it is the last, comes where the one before it ended, and is signed
   *  as the bytes that have then arrived are; with the disk doing as it is told.
   */
  lemma CompletesExactlyWhenSigned(r: Received, c: Chunk, disk: DiskAnswer, sign: Signer)
    ensures
      var (s, v) := Accepted(r, c, disk, sign);
      && (v == Complete <==>
            && !r.finished && c.last && c.offset == |r.bytes| && sign(r.bytes + c.data) == c.contentSig
            && disk.syncs && (c.data == [] || disk.writes))
      && (v == Complete ==> s == Received(r.bytes + c.data, true))
      && (v == More <==> !r.finished && !c.last && c.offset == |r.bytes| && (c.data == [] || disk.writes))
      && (v == More ==> s == Received(r.bytes + c.data, false))
      && (v == Refused ==> s.finished == r.finished)
  {
  }

  class Sink {
    var file: Bytes
    var written: nat
    var finished: bool

    ghost function Now(): Received
      reads this
    {
      Received(file, finished)
    }

    ghost predicate Valid()
      reads this
    {
      written == |file|
    }

    constructor ()
      ensures Valid() && Now() == Received([], false)
    {
      file, written, finished := [], 0, false;
    }

    /** Accept one chunk, or say that it cannot be vouched for. */
    method Accept(c: Chunk, disk: DiskAnswer, sign: Signer) returns (v: Verdict)
      requires Valid()
      modifies this
      ensures Valid() && (Now(), v) == Accepted(old(Now()), c, disk, sign)
    {
      if finished { return Refused; }
      if c.offset != written { return Refused; }
      assert c.data == [] ==> file + c.data == file;
      if c.data != [] {
        if !disk.writes { return Refused; }
        file := file + c.data;
        written := written + |c.data|;
      }
      if !c.last { return More; }
      if !disk.syncs { return Refused; }
      if sign(file) != c.contentSig { return Refused; }
      finished := true;
      return Complete;
    }
  }

  /** What a sink holds, and what it last said, after the chunks before it said it was complete or refused. */
  function Fed(got: seq<Chunk>, disk: nat -> DiskAnswer, sign: Signer): (Received, Verdict) {
    if got == [] then (Received([], false), More)
    else
      var (r, v) := Fed(got[..|got| - 1], disk, sign);
      if v != More then (r, v) else Accepted(r, got[|got| - 1], disk(|got| - 1), sign)
  }

  /** Whatever arrives, complete means the bytes are signed by the last chunk taken. */
  lemma {:induction false} CompleteIsSigned(got: seq<Chunk>, disk: nat -> DiskAnswer, sign: Signer)
    requires Fed(got, disk, sign).1 == Complete
    ensures exists c | c in got :: c.last && sign(Fed(got, disk, sign).0.bytes) == c.contentSig
  {
    var n := |got| - 1;
    var (r, v) := Fed(got[..n], disk, sign);
    if v != More {
      CompleteIsSigned(got[..n], disk, sign);
      var c :| c in got[..n] && c.last && sign(Fed(got[..n], disk, sign).0.bytes) == c.contentSig;
      assert c in got;
    } else {
      CompletesExactlyWhenSigned(r, got[n], disk(n), sign);
      assert got[n] in got;
    }
  }

  /** A whole file sent in order over a working disk arrives as it was. */
  lemma WholeFilesArrive(sent: seq<Chunk>, file: Bytes, disk: nat -> DiskAnswer, sign: Signer)
    requires Whole(sent, file, sign) && forall n :: disk(n) == DiskAnswer(true, true)
    ensures Fed(sent, disk, sign) == (Received(file, true), Complete)
  {
    BodyArrives(sent[..|sent| - 1], file, disk, sign);
    assert file + [] == file;
  }

  lemma {:induction false} BodyArrives(body: seq<Chunk>, file: Bytes, disk: nat -> DiskAnswer, sign: Signer)
    requires Consecutive(body, file) && forall n :: disk(n) == DiskAnswer(true, true)
    ensures Fed(body, disk, sign) == (Received(DataOf(body), false), More)
  {
    if body != [] {
      var n := |body| - 1;
      assert forall k | 0 <= k < n :: body[..n][..k] == body[..k];
      BodyArrives(body[..n], file, disk, sign);
      assert PieceOf(body[n], file);
    }
  }

  /** Chunks of one sender, in any order, any of them missing or repeated. */
  ghost predicate DrawnFrom(got: seq<Chunk>, sent: seq<Chunk>) { forall c | c in got :: c in sent }

  /** A chunk of the sender keeps a prefix a prefix, and completes only the whole. */
  lemma OneChunkKeepsThePrefix(r: Received, c: Chunk, sent: seq<Chunk>, file: Bytes, disk: DiskAnswer, sign: Signer)
    requires Whole(sent, file, sign) && c in sent
    requires |r.bytes| <= |file| && r.bytes == file[..|r.bytes|] && !r.finished
    ensures
      var (s, v) := Accepted(r, c, disk, sign);
      && |s.bytes| <= |file| && s.bytes == file[..|s.bytes|]
      && (v == Complete ==> s.bytes == file) && (s.finished <==> v == Complete)
  {
    if c != Terminator(file, sign) {
      if c.offset == |r.bytes| {
        assert file[..|r.bytes|] + file[|r.bytes|..|r.bytes| + |c.data|] == file[..|r.bytes| + |c.data|];
      }
    } else {
      assert r.bytes + [] == r.bytes;
      assert file[..|file|] == file;
    }
  }

  /** What has been written is always the start of the file, and complete means all of it: whatever the
   *  stream drops, repeats or reorders, and whatever the signature is.
   */
  lemma {:induction false} OnlyTheFileIsAccepted(
      got: seq<Chunk>, sent: seq<Chunk>, file: Bytes, disk: nat -> DiskAnswer, sign: Signer)
    requires Whole(sent, file, sign) && DrawnFrom(got, sent)
    ensures
      var (r, v) := Fed(got, disk, sign);
      && |r.bytes| <= |file| && r.bytes == file[..|r.bytes|]
      && (v == Complete ==> r.bytes == file)
      && (r.finished <==> v == Complete)
  {
    if got != [] {
      var n := |got| - 1;
      assert forall c | c in got[..n] :: c in got;
      OnlyTheFileIsAccepted(got[..n], sent, file, disk, sign);
      var (r, v) := Fed(got[..n], disk, sign);
      assert got[n] in got;
      if v == More { OneChunkKeepsThePrefix(r, got[n], sent, file, disk(n), sign); }
    }
  }

  // ---- Fetching

  /** The first so many items are chunks, and they complete a transfer. */
  predicate CompletedBy(items: seq<Item>, n: nat, disk: nat -> DiskAnswer, sign: Signer) {
    0 < n <= |items| && Broken !in items[..n] && Fed(Chunks(items[..n]), disk, sign).1 == Complete
  }

  /** After so many items there is more to come, and nothing has been completed by fewer. */
  ghost predicate StillMore(items: seq<Item>, i: nat, disk: nat -> DiskAnswer, sign: Signer, r: Received) {
    && i <= |items| && Broken !in items[..i] && Fed(Chunks(items[..i]), disk, sign) == (r, More)
    && forall n: nat | n <= i :: !CompletedBy(items, n, disk, sign)
  }

  lemma StillMoreGrows(items: seq<Item>, i: nat, disk: nat -> DiskAnswer, sign: Signer, r: Received)
    requires i < |items| && items[i].Sent? && StillMore(items, i, disk, sign, r)
    requires Accepted(r, items[i].chunk, disk(i), sign).1 == More
    ensures StillMore(items, i + 1, disk, sign, Accepted(r, items[i].chunk, disk(i), sign).0)
  {
    NextItem(items, i, disk, sign);
  }

  /** Fetch a source: a stream that breaks, or that ends without completing, is an error; and an error
   *  leaves nothing behind.
   */
  method FetchSource(items: seq<Item>, disk: nat -> DiskAnswer, sign: Signer) returns (dest: Option<Bytes>)
    ensures dest.Some? <==> exists n: nat :: CompletedBy(items, n, disk, sign)
    ensures dest.Some? ==> exists n: nat ::
      CompletedBy(items, n, disk, sign) && Fed(Chunks(items[..n]), disk, sign).0 == Received(dest.value, true)
  {
    var sink := new Sink();
    var i := 0;
    while i < |items|
      invariant 0 <= i <= |items| && sink.Valid() && fresh(sink) && StillMore(items, i, disk, sign, sink.Now())
    {
      if items[i].Broken? {
        NothingAfterBroken(items, i, disk, sign);
        return None;
      }
      NextItem(items, i, disk, sign);
      if Accepted(sink.Now(), items[i].chunk, disk(i), sign).1 == More {
        StillMoreGrows(items, i, disk, sign, sink.Now());
      }
      var v := sink.Accept(items[i].chunk, disk(i), sign);
      i := i + 1;
      if v == Complete {
        assert CompletedBy(items, i, disk, sign);
        return Some(sink.file);
      }
      if v == Refused {
        RefusedStaysRefused(items, i, disk, sign);
        return None;
      }
    }
    return None;
  }

  lemma NextItem(items: seq<Item>, i: nat, disk: nat -> DiskAnswer, sign: Signer)
    requires i < |items| && Broken !in items[..i] && items[i].Sent? && Fed(Chunks(items[..i]), disk, sign).1 == More
    ensures Broken !in items[..i + 1]
    ensures Fed(Chunks(items[..i + 1]), disk, sign) ==
      Accepted(Fed(Chunks(items[..i]), disk, sign).0, items[i].chunk, disk(i), sign)
  {
    assert items[..i + 1] == items[..i] + [items[i]];
    assert items[..i + 1][..i] == items[..i];
    var cs := Chunks(items[..i + 1]);
    assert cs[..|cs| - 1] == Chunks(items[..i]);
  }

  lemma NothingAfterBroken(items: seq<Item>, i: nat, disk: nat -> DiskAnswer, sign: Signer)
    requires i < |items| && items[i] == Broken
    ensures forall n: nat | n > i :: !CompletedBy(items, n, disk, sign)
  {
    forall n: nat | i < n <= |items| ensures Broken in items[..n] {
      assert items[..n][i] == Broken;
    }
  }

  lemma RefusedStaysRefused(items: seq<Item>, i: nat, disk: nat -> DiskAnswer, sign: Signer)
    requires 0 < i <= |items| && Broken !in items[..i] && Fed(Chunks(items[..i]), disk, sign).1 == Refused
    ensures forall n: nat | n >= i :: !CompletedBy(items, n, disk, sign)
  {
    forall n: nat | i <= n <= |items| && Broken !in items[..n]
      ensures Fed(Chunks(items[..n]), disk, sign).1 == Refused
    {
      RefusedAt(items, i, n, disk, sign);
    }
  }

  lemma {:induction false} RefusedAt(items: seq<Item>, i: nat, n: nat, disk: nat -> DiskAnswer, sign: Signer)
    requires 0 < i <= n <= |items| && Broken !in items[..n]
    requires Broken !in items[..i] && Fed(Chunks(items[..i]), disk, sign).1 == Refused
    ensures Fed(Chunks(items[..n]), disk, sign).1 == Refused
  {
    if i < n {
      assert items[..n][..n - 1] == items[..n - 1];
      assert forall x | x in items[..n - 1] :: x in items[..n];
      RefusedAt(items, i, n - 1, disk, sign);
      assert Chunks(items[..n])[..|Chunks(items[..n])| - 1] == Chunks(items[..n - 1]);
    }
  }

  /** A fetch fed by one sender's chunks ends with that sender's file or with nothing. */
  lemma FetchedIsTheFile(
      items: seq<Item>, n: nat, sent: seq<Chunk>, file: Bytes, bytes: Bytes, disk: nat -> DiskAnswer, sign: Signer)
    requires CompletedBy(items, n, disk, sign) && Whole(sent, file, sign) && DrawnFrom(Chunks(items[..n]), sent)
    requires Fed(Chunks(items[..n]), disk, sign).0 == Received(bytes, true)
    ensures bytes == file
  {
    OnlyTheFileIsAccepted(Chunks(items[..n]), sent, file, disk, sign);
  }
}
