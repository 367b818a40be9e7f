/** Network messages: the size and kind header, the buffer behind a message, and the six queries. */
module Messages {
  import opened Basics
  import opened ClientCore
  import opened Serialisation

  const OK: nat := 0
  const LOGIN: nat := 1
  const LOGIN_CONFIRM: nat := 2
  const CREATE_QUEUE: nat := 3
  const SUBSCRIBE: nat := 4
  const UNSUBSCRIBE: nat := 5
  const PUBLISH: nat := 6

  // ---------------------------------------------------------------- the buffer

  /** `realSize`: the 32-bit size of a message with `sz` bytes after the size prefix. */
  function RealSize(sz: nat): nat {
    (sz + 4) % U32_LIMIT
  }

  /** The number of bytes allocated for it; the doubling is 32-bit arithmetic. */
  function Allocated(sz: nat): nat {
    (RealSize(sz) * 2) % U32_LIMIT
  }

  /** The allocation holds the message, and the size prefix is right, exactly below 2^31 bytes. */
  lemma AllocationSuffices(capacity: nat)
    ensures RealSize(capacity + 2) == 6 + capacity && 6 + capacity <= Allocated(capacity + 2) <==> 6 + capacity < U31_LIMIT
  {
  }

  /** A whole message as sent: size, kind, payload. */
  function Frame(kind: nat, fs: seq<Field>): Text {
    Le(6 + Capacity(fs), 4) + Le(kind, 2) + Encode(fs)
  }

  class NetworkMessage {
    const data: array<byte>

    /** Allocates the buffer, clears the message and writes the header. */
    constructor (sz: nat, kind: nat)
      requires 6 + sz < U31_LIMIT
      ensures fresh(data) && data.Length == Allocated(sz + 2)
      ensures 6 + sz <= data.Length && data[..6] == Le(6 + sz, 4) + Le(kind, 2)
    {
      var realSize := (sz + 2 + 4) % U32_LIMIT;
      data := new byte[(realSize * 2) % U32_LIMIT](_ => 0);
      new;
      AllocationSuffices(sz);
      var size, kindBytes := Le(realSize, 4), Le(kind, 2);
      SpliceTwice(data[..], 0, size, kindBytes);
      Memcpy(data, 0, size);
      Memcpy(data, 4, kindBytes);
      assert data[..6] == data[..][0..6];
    }

    /** What `as_buffer` hands to the socket: as many bytes as the size prefix says. */
    ghost function Sent(): Text
      requires 4 <= data.Length && FromLe(data[..4]) <= data.Length
      reads data
    {
      data[..FromLe(data[..4])]
    }

    method SetKind(kind: nat)
      requires 6 <= data.Length
      modifies data
      ensures data[..] == Splice(old(data[..]), 4, Le(kind, 2))
    {
      Memcpy(data, 4, Le(kind, 2));
    }
  }

  lemma SizeBack(n: nat, rest: Text)
    requires n < U32_LIMIT
    ensures (Le(n, 4) + rest)[..4] == Le(n, 4) && FromLe((Le(n, 4) + rest)[..4]) == n
  {
    assert (Le(n, 4) + rest)[..4] == Le(n, 4);
    LeTruncates(n, 4);
    Widths();
  }

  /** `toNetworkMessage`: the bytes sent are those of the frame, no more and no fewer. */
  method ToNetworkMessage(kind: nat, fs: seq<Field>) returns (nd: NetworkMessage)
    requires 6 + Capacity(fs) < U31_LIMIT
    ensures fresh(nd) && fresh(nd.data)
    ensures 6 + Capacity(fs) <= nd.data.Length && nd.data[..6 + Capacity(fs)] == Frame(kind, fs)
    ensures FromLe(nd.data[..4]) == 6 + Capacity(fs) && nd.Sent() == Frame(kind, fs)
  {
    var n := Capacity(fs);
    nd := new NetworkMessage(n, kind);
    ghost var header := nd.data[..6];
    WriteArgs(nd.data, 6, fs);
    assert nd.data[..6 + n] == header + Encode(fs);
    assert nd.data[..6 + n] == Le(6 + n, 4) + (Le(kind, 2) + Encode(fs));
    SizeBack(6 + n, Le(kind, 2) + Encode(fs));
    assert nd.data[..4] == nd.data[..6 + n][..4];
  }

  // ---------------------------------------------------------------- the queries

  function U64(id: nat): Field {
    PodV(Le(id, 8))
  }

  /** A `std::vector<uint8_t>`: elements of one byte. */
  function Bytes(data: Text): Field {
    VecV(seq(|data|, i requires 0 <= i < |data| => [data[i]]))
  }

  function FromBytes(f: Field): Text {
    if f.VecV? then Flat(f.items) else []
  }

  function KindOf(body: Request): nat {
    match body
    case CreateQueue(_) => CREATE_QUEUE
    case Subscribe(_) => SUBSCRIBE
    case Unsubscribe(_) => UNSUBSCRIBE
    case Publish(_, _) => PUBLISH
  }

  function UpFields(f: Up): seq<Field> {
    match f
    case Login(login) => [StrV(login)]
    case Req(id, CreateQueue(name)) => [StrV(name), U64(id)]
    case Req(id, Subscribe(settings)) => [StrV(settings.queueName), StrV(settings.tag), U64(id)]
    case Req(id, Unsubscribe(name)) => [StrV(name), StrV([]), U64(id)]
    case Req(id, Publish(params, data)) => [StrV(params.queueName), StrV(params.tag), Bytes(data), U64(id)]
  }

  function DownFields(d: Down): seq<Field> {
    match d
    case Ok(id) => [U64(id)]
    case LoginConfirm(conn) => [U64(conn)]
    case Copy(params, data, serial) => [StrV(params.queueName), StrV(params.tag), Bytes(data), U64(serial)]
  }

  function UpBytes(f: Up): Text {
    Frame(if f.Login? then LOGIN else KindOf(f.body), UpFields(f))
  }

  function DownKind(d: Down): nat {
    match d
    case Ok(_) => OK
    case LoginConfirm(_) => LOGIN_CONFIRM
    case Copy(_, _, _) => PUBLISH
  }

  function DownBytes(d: Down): Text {
    Frame(DownKind(d), DownFields(d))
  }

  /** The number an answer carries: a request id, a client id or a serial. */
  function NumberOf(d: Down): nat {
    match d
    case Ok(id) => id
    case LoginConfirm(conn) => conn
    case Copy(_, _, serial) => serial
  }

  /** The scheme of each kind of message. */
  function Scheme(kind: nat): seq<FieldType> {
    if kind == OK || kind == LOGIN_CONFIRM then [Pod(8)]
    else if kind == LOGIN then [Str]
    else if kind == CREATE_QUEUE then [Str, Pod(8)]
    else if kind == SUBSCRIBE || kind == UNSUBSCRIBE then [Str, Str, Pod(8)]
    else [Str, Str, Vec(1), Pod(8)]
  }

  /** Header and payload of a received message. */
  function Parse(bs: Text): Option<(nat, seq<Field>)> {
    if |bs| < 6 then None
    else
      var kind := FromLe(bs[4..6]);
      match Decode(Scheme(kind), bs[6..])
      case None => None
      case Some((fs, _)) => Some((kind, fs))
  }

  /** The decoding constructors, as the server's dispatch uses them. */
  function ParseUp(bs: Text): Option<Up> {
    match Parse(bs)
    case None => None
    case Some((kind, fs)) =>
      if kind == LOGIN && |fs| == 1 && fs[0].StrV? then Some(Login(fs[0].text))
      else if kind == CREATE_QUEUE && |fs| == 2 && fs[0].StrV? && fs[1].PodV? then
        Some(Req(FromLe(fs[1].raw), CreateQueue(fs[0].text)))
      else if kind == SUBSCRIBE && |fs| == 3 && fs[0].StrV? && fs[1].StrV? && fs[2].PodV? then
        Some(Req(FromLe(fs[2].raw), Subscribe(SubscriptionParams(fs[0].text, fs[1].text))))
      else if kind == UNSUBSCRIBE && |fs| == 3 && fs[0].StrV? && fs[2].PodV? then
        Some(Req(FromLe(fs[2].raw), Unsubscribe(fs[0].text)))
      else if kind == PUBLISH && |fs| == 4 && fs[0].StrV? && fs[1].StrV? && fs[3].PodV? then
        Some(Req(FromLe(fs[3].raw), Publish(PublishParams(fs[0].text, fs[1].text), FromBytes(fs[2]))))
      else None
  }

  /** The decoding constructors, as the client's dispatch uses them. */
  function ParseDown(bs: Text): Option<Down> {
    match Parse(bs)
    case None => None
    case Some((kind, fs)) =>
      if kind == OK && |fs| == 1 && fs[0].PodV? then Some(Ok(FromLe(fs[0].raw)))
      else if kind == LOGIN_CONFIRM && |fs| == 1 && fs[0].PodV? then Some(LoginConfirm(FromLe(fs[0].raw)))
      else if kind == PUBLISH && |fs| == 4 && fs[0].StrV? && fs[1].StrV? && fs[3].PodV? then
        Some(Copy(PublishParams(fs[0].text, fs[1].text), FromBytes(fs[2]), FromLe(fs[3].raw)))
      else None
  }

  lemma U64Back(id: nat)
    requires id < U64_LIMIT
    ensures FromLe(U64(id).raw) == id && HasType(U64(id), Pod(8))
  {
    LeTruncates(id, 8);
    Widths();
  }

  lemma {:induction false} FlatOfSingletons(data: Text)
    ensures Flat(seq(|data|, i requires 0 <= i < |data| => [data[i]])) == data
  {
    var items := seq(|data|, i requires 0 <= i < |data| => [data[i]]);
    if data != [] {
      var rest := data[1..];
      FlatOfSingletons(rest);
      assert items[1..] == seq(|rest|, i requires 0 <= i < |rest| => [rest[i]]);
      assert items[0] == [data[0]];
    }
  }

  lemma FrameLayout(kind: nat, fs: seq<Field>)
    ensures var bs := Frame(kind, fs);
            6 <= |bs| && bs[..4] == Le(|bs|, 4) && bs[4..6] == Le(kind, 2) && bs[6..] == Encode(fs)
  {
  }

  /** The size prefix of a frame is the number of its bytes. */
  lemma FrameSize(kind: nat, fs: seq<Field>)
    requires 6 + Capacity(fs) < U32_LIMIT
    ensures |Frame(kind, fs)| == 6 + Capacity(fs) && FromLe(Frame(kind, fs)[..4]) == |Frame(kind, fs)|
  {
    assert Frame(kind, fs) == Le(6 + Capacity(fs), 4) + (Le(kind, 2) + Encode(fs));
    SizeBack(6 + Capacity(fs), Le(kind, 2) + Encode(fs));
  }

  lemma KindBack(kind: nat)
    requires kind < U16_LIMIT
    ensures FromLe(Le(kind, 2)) == kind
  {
    LeTruncates(kind, 2);
    Widths();
  }

  /** Any header kind over any payload parses back to that kind and payload. */
  lemma FrameBack(kind: nat, fs: seq<Field>)
    requires kind < U16_LIMIT && HaveTypes(fs, Scheme(kind)) && Fits(fs)
    ensures Parse(Frame(kind, fs)) == Some((kind, fs))
  {
    FrameLayout(kind, fs);
    KindBack(kind);
    RoundTrip(fs, Scheme(kind), []);
    assert Encode(fs) + [] == Encode(fs);
  }

  ghost predicate Sendable(fs: seq<Field>) {
    Fits(fs) && 6 + Capacity(fs) < U31_LIMIT
  }

  /** Every frame a client sends is parsed by the server to the request it stands for. */
  lemma UpRoundTrip(f: Up)
    requires Fits(UpFields(f)) && (f.Req? ==> f.id < U64_LIMIT)
    ensures ParseUp(UpBytes(f)) == Some(f)
  {
    FrameBack(if f.Login? then LOGIN else KindOf(f.body), UpFields(f));
    if f.Req? {
      U64Back(f.id);
      if f.body.Publish? {
        FlatOfSingletons(f.body.data);
      }
    }
  }

  /** Every frame the server sends is parsed by the client to the answer it stands for. */
  lemma DownRoundTrip(d: Down)
    requires Fits(DownFields(d)) && NumberOf(d) < U64_LIMIT
    ensures ParseDown(DownBytes(d)) == Some(d)
  {
    FrameBack(DownKind(d), DownFields(d));
    U64Back(NumberOf(d));
    if d.Copy? {
      FlatOfSingletons(d.data);
    }
  }

  /** Overwriting the header's kind, as subscribe and unsubscribe do, leaves the decoded payload. */
  lemma KindOverwriteKeepsPayload(kind: nat, other: nat, fs: seq<Field>)
    requires other < U16_LIMIT && Scheme(other) == Scheme(kind) && HaveTypes(fs, Scheme(kind)) && Fits(fs)
    ensures Frame(kind, fs)[..4] + Le(other, 2) + Frame(kind, fs)[6..] == Frame(other, fs)
    ensures Parse(Frame(kind, fs)[..4] + Le(other, 2) + Frame(kind, fs)[6..]) == Some((other, fs))
  {
    FrameBack(other, fs);
    FrameLayout(kind, fs);
  }

  // ---------------------------------------------------------------- the bytes on the wire

  /** A text on the wire: its length in four bytes, then itself. */
  function Counted(text: Text): Text {
    Le(|text| % U32_LIMIT, 4) + text
  }

  /** A message on the wire: its whole length in four bytes, its kind in two, and the payload. */
  function OnWire(kind: byte, payload: Text): Text {
    Le(6 + |payload|, 4) + [kind, 0] + payload
  }

  lemma TwoFields(a: Field, b: Field)
    ensures Encode([a, b]) == WriteField(a) + WriteField(b)
  {
    assert [a, b][1..] == [b];
    assert Encode([b]) == WriteField(b) + [];
  }

  lemma ThreeFields(a: Field, b: Field, c: Field)
    ensures Encode([a, b, c]) == WriteField(a) + (WriteField(b) + WriteField(c))
  {
    assert [a, b, c][1..] == [b, c];
    TwoFields(b, c);
  }

  lemma FourFields(a: Field, b: Field, c: Field, d: Field)
    ensures Encode([a, b, c, d]) == WriteField(a) + (WriteField(b) + (WriteField(c) + WriteField(d)))
  {
    assert [a, b, c, d][1..] == [b, c, d];
    ThreeFields(b, c, d);
  }

  lemma KindBytes(kind: byte)
    ensures Le(kind, 2) == [kind, 0]
  {
    assert Le(kind, 2) == [kind % 256] + Le(kind / 256, 1);
    assert Le(0, 1) == [0] + [];
  }

  lemma FrameOnWire(kind: byte, fs: seq<Field>)
    ensures Frame(kind, fs) == OnWire(kind, Encode(fs))
  {
    KindBytes(kind);
  }

  lemma BytesField(data: Text)
    ensures WriteField(Bytes(data)) == Counted(data)
  {
    FlatOfSingletons(data);
  }

  /** What a client's requests look like, byte for byte. */
  function UpOnWire(f: Up): Text {
    match f
    case Login(login) => OnWire(1, Counted(login))
    case Req(id, CreateQueue(name)) => OnWire(3, Counted(name) + Le(id, 8))
    case Req(id, Subscribe(settings)) => OnWire(4, Counted(settings.queueName) + (Counted(settings.tag) + Le(id, 8)))
    case Req(id, Unsubscribe(name)) => OnWire(5, Counted(name) + (Le(0, 4) + Le(id, 8)))
    case Req(id, Publish(params, data)) =>
      OnWire(6, Counted(params.queueName) + (Counted(params.tag) + (Counted(data) + Le(id, 8))))
  }

  lemma UpLayout(f: Up)
    ensures UpBytes(f) == UpOnWire(f)
  {
    match f
    case Login(login) =>
      FrameOnWire(1, UpFields(f));
      assert Encode([StrV(login)]) == WriteField(StrV(login)) + [];
    case Req(id, CreateQueue(name)) => FrameOnWire(3, UpFields(f)); TwoFields(StrV(name), U64(id));
    case Req(id, Subscribe(settings)) =>
      FrameOnWire(4, UpFields(f));
      ThreeFields(StrV(settings.queueName), StrV(settings.tag), U64(id));
    case Req(id, Unsubscribe(name)) =>
      FrameOnWire(5, UpFields(f));
      ThreeFields(StrV(name), StrV([]), U64(id));
      assert WriteField(StrV([])) == Le(0, 4);
    case Req(id, Publish(params, data)) =>
      FrameOnWire(6, UpFields(f));
      FourFields(StrV(params.queueName), StrV(params.tag), Bytes(data), U64(id));
      BytesField(data);
  }

  /** What the server's frames look like, byte for byte. */
  function DownOnWire(d: Down): Text {
    match d
    case Ok(id) => OnWire(0, Le(id, 8))
    case LoginConfirm(conn) => OnWire(2, Le(conn, 8))
    case Copy(params, data, serial) =>
      OnWire(6, Counted(params.queueName) + (Counted(params.tag) + (Counted(data) + Le(serial, 8))))
  }

  lemma DownLayout(d: Down)
    ensures DownBytes(d) == DownOnWire(d)
  {
    match d
    case Ok(id) =>
      FrameOnWire(0, DownFields(d));
      assert Encode([U64(id)]) == WriteField(U64(id)) + [];
    case LoginConfirm(conn) =>
      FrameOnWire(2, DownFields(d));
      assert Encode([U64(conn)]) == WriteField(U64(conn)) + [];
    case Copy(params, data, serial) =>
      FrameOnWire(6, DownFields(d));
      FourFields(StrV(params.queueName), StrV(params.tag), Bytes(data), U64(serial));
      BytesField(data);
  }
}
