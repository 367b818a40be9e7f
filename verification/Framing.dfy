/** Reassembling a byte stream into messages: the two-stage reader of `AsyncIO`. */
module Framing {
  import opened Basics
  import opened ClientCore
  import opened Serialisation
  import opened Messages

  /** What the reader is waiting for. */
  datatype Stage = Size | Body(size: nat) | Corrupt

  /** The bytes of the message being read are kept from its first byte on, size prefix included. */
  datatype Reader = Reader(stage: Stage, partial: Text, delivered: seq<Text>)

  const START := Reader(Size, [], [])

  /** The sizes for which a buffer is allocated that holds the message. */
  predicate SoundSize(size: nat) {
    4 <= size < U31_LIMIT
  }

  /** One more byte arrives. */
  function Feed(r: Reader, b: byte): Reader {
    var bs := r.partial + [b];
    match r.stage
    case Corrupt => r
    case Size =>
      if |bs| < 4 then r.(partial := bs)
      else
        var size := FromLe(bs[..4]);
        if !SoundSize(size) then Reader(Corrupt, bs, r.delivered)
        else if size == |bs| then Reader(Size, [], r.delivered + [bs])
        else Reader(Body(size), bs, r.delivered)
    case Body(size) =>
      if |bs| < size then r.(partial := bs) else Reader(Size, [], r.delivered + [bs])
  }

  function FeedAll(r: Reader, bs: Text): Reader
    decreases |bs|
  {
    if bs == [] then r else FeedAll(Feed(r, bs[0]), bs[1..])
  }

  lemma {:induction false} FeedConcat(r: Reader, a: Text, b: Text)
    ensures FeedAll(r, a + b) == FeedAll(FeedAll(r, a), b)
    decreases |a|
  {
    if a == [] {
      assert a + b == b;
    } else {
      assert (a + b)[1..] == a[1..] + b;
      FeedConcat(Feed(r, a[0]), a[1..], b);
    }
  }

  lemma FeedLast(r: Reader, a: Text, x: byte)
    ensures FeedAll(r, a + [x]) == Feed(FeedAll(r, a), x)
  {
    FeedConcat(r, a, [x]);
    assert [x][1..] == [];
  }

  // ---------------------------------------------------------------- the reader class

  /** How many bytes the pending `async_read` still wants. */
  function Wanted(r: Reader): nat {
    match r.stage
    case Corrupt => 0
    case Size => if |r.partial| < 4 then 4 - |r.partial| else 0
    case Body(size) => if |r.partial| < size then size - |r.partial| else 0
  }

  /** Fewer bytes than wanted are only buffered. */
  lemma {:induction false} FeedPartial(r: Reader, bs: Text)
    requires |bs| < Wanted(r)
    ensures FeedAll(r, bs) == r.(partial := r.partial + bs)
    decreases |bs|
  {
    if bs == [] {
      assert r.partial + bs == r.partial;
    } else {
      FeedPartial(Feed(r, bs[0]), bs[1..]);
      assert r.partial + bs == (r.partial + [bs[0]]) + bs[1..];
    }
  }

  class AsyncReader {
    var stage: Stage
    var partial: Text
    var delivered: seq<Text>

    ghost function State(): Reader
      reads this
    {
      Reader(stage, partial, delivered)
    }

    ghost predicate Valid()
      reads this
    {
      stage.Corrupt? || Wanted(State()) > 0
    }

    constructor ()
      ensures Valid() && State() == START
    {
      stage, partial, delivered := Size, [], [];
    }

    /** The completion handlers of the two chained reads; runs when nothing more is wanted. */
    method Complete(last: byte)
      requires Valid() && Wanted(State()) == 1
      modifies this
      ensures Valid() && State() == Feed(old(State()), last)
    {
      partial := partial + [last];
      match stage {
        case Size =>
          var nextMessageSize := FromLe(partial[..4]);
          if !SoundSize(nextMessageSize) {
            stage := Corrupt;
          } else if nextMessageSize == 4 {
            delivered, partial := delivered + [partial], [];
          } else {
            stage := Body(nextMessageSize);
          }
        case Body(_) =>
          delivered, partial, stage := delivered + [partial], [], Size;
      }
    }

    /** A chunk from the socket: as much of it as the pending read wants, again and again. */
    method Receive(chunk: Text)
      requires Valid()
      modifies this
      ensures Valid() && State() == FeedAll(old(State()), chunk)
    {
      var at := 0;
      while at < |chunk|
        invariant at <= |chunk| && Valid()
        invariant FeedAll(State(), chunk[at..]) == FeedAll(old(State()), chunk)
      {
        if stage.Corrupt? {
          CorruptStays(State(), chunk[at..]);
          return;
        }
        var want := (match stage case Body(size) => size - |partial| case _ => 4 - |partial|) - 1;
        var take := if want < |chunk| - at then want else |chunk| - at;
        ghost var before := State();
        assert chunk[at..] == chunk[at..at + take] + chunk[at + take..];
        FeedConcat(before, chunk[at..at + take], chunk[at + take..]);
        FeedPartial(before, chunk[at..at + take]);
        partial := partial + chunk[at..at + take];
        at := at + take;
        if at < |chunk| {
          Complete(chunk[at]);
          assert chunk[at..][0] == chunk[at] && chunk[at..][1..] == chunk[at + 1..];
          at := at + 1;
        }
      }
      assert chunk[at..] == [];
    }
  }

  lemma {:induction false} CorruptStays(r: Reader, bs: Text)
    requires r.stage.Corrupt?
    ensures FeedAll(r, bs) == r
  {
    if bs != [] {
      CorruptStays(r, bs[1..]);
    }
  }

  // ---------------------------------------------------------------- reassembly

  /** A message as `NetworkMessage` lays it out: its size prefix is its length. */
  ghost predicate WellFramed(f: Text) {
    SoundSize(|f|) && FromLe(f[..4]) == |f|
  }

  /** The reader part-way through message `f`. */
  function Midway(f: Text, n: nat, delivered: seq<Text>): Reader
    requires n <= |f| && 4 <= |f|
  {
    if n == |f| then Reader(Size, [], delivered + [f])
    else Reader(if n < 4 then Size else Body(|f|), f[..n], delivered)
  }

  lemma {:induction false} FeedWithin(f: Text, n: nat, delivered: seq<Text>)
    requires WellFramed(f) && n <= |f|
    ensures FeedAll(Reader(Size, [], delivered), f[..n]) == Midway(f, n, delivered)
    decreases n
  {
    if n > 0 {
      FeedWithin(f, n - 1, delivered);
      assert f[..n] == f[..n - 1] + [f[n - 1]];
      FeedLast(Reader(Size, [], delivered), f[..n - 1], f[n - 1]);
      if n == 4 {
        assert f[..4][..4] == f[..4];
      }
      if n == |f| {
        assert f[..n] == f;
      }
    }
  }

  /** Reader `r`, started with `before` delivered, has read `bs` as the first `k` messages of `fs` and a part. */
  ghost predicate HasRead(r: Reader, before: seq<Text>, fs: seq<Text>, k: nat, bs: Text) {
    && k <= |fs| && r.stage != Corrupt
    && r.delivered == before + fs[..k]
    && Flat(fs[..k]) + r.partial == bs
    && (if k < |fs| then |r.partial| < |fs[k]| else r.partial == [])
  }

  lemma ReadOneMore(r: Reader, before: seq<Text>, f: Text, fs: seq<Text>, k: nat, bs: Text)
    requires HasRead(r, before + [f], fs, k, bs)
    ensures HasRead(r, before, [f] + fs, k + 1, f + bs)
  {
    assert ([f] + fs)[..k + 1] == [f] + fs[..k];
    FlatConcat([f], fs[..k]);
    assert Flat([f]) == f;
  }

  /** Any prefix of a stream of messages is read as the messages it completes and a part of the next. */
  lemma {:induction false} FeedStream(fs: seq<Text>, n: nat, before: seq<Text>) returns (k: nat)
    requires (forall f :: f in fs ==> WellFramed(f)) && n <= |Flat(fs)|
    ensures HasRead(FeedAll(Reader(Size, [], before), Flat(fs)[..n]), before, fs, k, Flat(fs)[..n])
  {
    k := 0;
    var start := Reader(Size, [], before);
    if fs == [] {
      assert Flat(fs)[..n] == [];
    } else if n < |fs[0]| {
      assert Flat(fs)[..n] == fs[0][..n];
      FeedWithin(fs[0], n, before);
    } else {
      var f, rest := fs[0], fs[1..];
      var bs := Flat(rest)[..n - |f|];
      assert f[..|f|] == f && fs == [f] + rest;
      FeedWithin(f, |f|, before);
      assert Flat(fs)[..n] == f + bs;
      FeedConcat(start, f, bs);
      k := FeedStream(rest, n - |f|, before + [f]);
      ReadOneMore(FeedAll(start, Flat(fs)[..n]), before, f, rest, k, bs);
      k := k + 1;
    }
  }

  function ReceiveAll(r: Reader, chunks: seq<Text>): Reader
    decreases |chunks|
  {
    if chunks == [] then r else ReceiveAll(FeedAll(r, chunks[0]), chunks[1..])
  }

  lemma {:induction false} ChunkingDoesNotMatter(r: Reader, chunks: seq<Text>)
    ensures ReceiveAll(r, chunks) == FeedAll(r, Flat(chunks))
    decreases |chunks|
  {
    if chunks != [] {
      FeedConcat(r, chunks[0], Flat(chunks[1..]));
      ChunkingDoesNotMatter(FeedAll(r, chunks[0]), chunks[1..]);
    }
  }

  /** For any messages sent and any chunking of their bytes, what has been delivered is a prefix of
   *  what was sent, nothing is lost or invented, and once all bytes are read everything is delivered. */
  lemma Reassembly(fs: seq<Text>, chunks: seq<Text>, unread: Text)
    requires (forall f :: f in fs ==> WellFramed(f)) && Flat(chunks) + unread == Flat(fs)
    ensures var r := ReceiveAll(START, chunks);
            && r.delivered <= fs
            && Flat(r.delivered) + r.partial + unread == Flat(fs)
            && (|r.delivered| < |fs| ==> |r.partial| < |fs[|r.delivered|]|)
            && (unread == [] ==> r.delivered == fs && r.partial == [])
  {
    var n := |Flat(chunks)|;
    ChunkingDoesNotMatter(START, chunks);
    assert Flat(chunks) == Flat(fs)[..n];
    var k := FeedStream(fs, n, []);
    assert ReceiveAll(START, chunks).delivered == fs[..k];
    assert Flat(chunks)[..n] == Flat(chunks);
    if k < |fs| {
      FlatSplit(fs, k);
    } else {
      assert fs[..k] == fs;
    }
  }

  lemma FlatSplit(fs: seq<Text>, k: nat)
    requires k < |fs|
    ensures |Flat(fs)| >= |Flat(fs[..k])| + |fs[k]|
  {
    assert fs == fs[..k] + fs[k..];
    FlatConcat(fs[..k], fs[k..]);
  }

  // ---------------------------------------------------------------- end to end

  function EncodeAll(msgs: seq<Up>): seq<Text> {
    seq(|msgs|, i requires 0 <= i < |msgs| => UpBytes(msgs[i]))
  }

  ghost predicate CanBeSent(f: Up) {
    Sendable(UpFields(f)) && (f.Req? ==> f.id < U64_LIMIT)
  }

  lemma UpBytesWellFramed(f: Up)
    requires CanBeSent(f)
    ensures WellFramed(UpBytes(f))
  {
    FrameSize(if f.Login? then LOGIN else KindOf(f.body), UpFields(f));
  }

  /** Requests sent as bytes and received in any chunks are the requests sent, in order. */
  lemma RequestsSurviveTheWire(msgs: seq<Up>, chunks: seq<Text>, unread: Text)
    requires (forall m :: m in msgs ==> CanBeSent(m)) && Flat(chunks) + unread == Flat(EncodeAll(msgs))
    ensures var got := ReceiveAll(START, chunks).delivered;
            && |got| <= |msgs| && (unread == [] ==> |got| == |msgs|)
            && forall i :: 0 <= i < |got| ==> ParseUp(got[i]) == Some(msgs[i])
  {
    var fs := EncodeAll(msgs);
    forall f | f in fs ensures WellFramed(f) {
      var i :| 0 <= i < |fs| && fs[i] == f;
      UpBytesWellFramed(msgs[i]);
    }
    Reassembly(fs, chunks, unread);
    var got := ReceiveAll(START, chunks).delivered;
    forall i | 0 <= i < |got| ensures ParseUp(got[i]) == Some(msgs[i]) {
      assert got[i] == fs[i] && msgs[i] in msgs;
      UpRoundTrip(msgs[i]);
    }
  }

  function EncodeAnswers(msgs: seq<Down>): seq<Text> {
    seq(|msgs|, i requires 0 <= i < |msgs| => DownBytes(msgs[i]))
  }

  ghost predicate CanBeAnswered(d: Down) {
    Sendable(DownFields(d)) && NumberOf(d) < U64_LIMIT
  }

  lemma DownBytesWellFramed(d: Down)
    requires CanBeAnswered(d)
    ensures WellFramed(DownBytes(d))
  {
    FrameSize(DownKind(d), DownFields(d));
  }

  /** Answers sent as bytes and received in any chunks are the answers sent, in order. */
  lemma AnswersSurviveTheWire(msgs: seq<Down>, chunks: seq<Text>, unread: Text)
    requires (forall m :: m in msgs ==> CanBeAnswered(m)) && Flat(chunks) + unread == Flat(EncodeAnswers(msgs))
    ensures var got := ReceiveAll(START, chunks).delivered;
            && |got| <= |msgs| && (unread == [] ==> |got| == |msgs|)
            && forall i :: 0 <= i < |got| ==> ParseDown(got[i]) == Some(msgs[i])
  {
    var fs := EncodeAnswers(msgs);
    forall f | f in fs ensures WellFramed(f) {
      var i :| 0 <= i < |fs| && fs[i] == f;
      DownBytesWellFramed(msgs[i]);
    }
    Reassembly(fs, chunks, unread);
    var got := ReceiveAll(START, chunks).delivered;
    forall i | 0 <= i < |got| ensures ParseDown(got[i]) == Some(msgs[i]) {
      assert got[i] == fs[i] && msgs[i] in msgs;
      DownRoundTrip(msgs[i]);
    }
  }
}
