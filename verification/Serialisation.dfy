/** The schema-driven wire format: field encodings, their sizes, and the in-place writer. */
module Serialisation {
  import opened Basics

  // ---------------------------------------------------------------- little-endian integers

  function Pow256(w: nat): (p: nat)
    ensures p > 0
  {
    if w == 0 then 1 else 256 * Pow256(w - 1)
  }

  /** The low `w` bytes of `n`: storing it in an unsigned integer of that width and copying that out. */
  function Le(n: nat, w: nat): (bs: Text)
    ensures |bs| == w
  {
    if w == 0 then [] else [n % 256] + Le(n / 256, w - 1)
  }

  function FromLe(bs: Text): nat {
    if bs == [] then 0 else bs[0] + 256 * FromLe(bs[1..])
  }

  lemma Digits(b: byte, n: nat)
    ensures (256 * n + b) % 256 == b && (256 * n + b) / 256 == n
  {
  }

  /** The least significant byte comes first, in writing and in reading. */
  lemma LeastByteFirst(b: byte, n: nat, w: nat, bs: Text)
    ensures Le(256 * n + b, w + 1) == [b] + Le(n, w)
    ensures FromLe([b] + bs) == 256 * FromLe(bs) + b
  {
    Digits(b, n);
    assert ([b] + bs)[1..] == bs;
  }

  lemma {:induction false} FromLeBound(bs: Text)
    ensures FromLe(bs) < Pow256(|bs|)
  {
    if bs != [] {
      FromLeBound(bs[1..]);
    }
  }

  /** Copying out and back truncates to the width. */
  lemma {:induction false} LeTruncates(n: nat, w: nat)
    ensures FromLe(Le(n, w)) == n % Pow256(w)
  {
    if w > 0 {
      LeTruncates(n / 256, w - 1);
      var p := Pow256(w - 1);
      assert Le(n, w)[1..] == Le(n / 256, w - 1);
      DivModStep(n, p);
    }
  }

  lemma DivModStep(n: nat, p: nat)
    requires p > 0
    ensures n % (256 * p) == n % 256 + 256 * ((n / 256) % p)
  {
    var q, r := (n / 256) / p, (n / 256) % p;
    assert n / 256 == q * p + r;
    var low := n % 256 + 256 * r;
    assert n == 256 * (q * p + r) + n % 256;
    assert 256 * (q * p) == q * (256 * p);
    assert n == q * (256 * p) + low;
    assert 0 <= low < 256 * p;
    ModUnique(n, 256 * p, q, low);
  }

  lemma MulGrows(d: int, m: int)
    requires m > 0
    ensures d >= 1 ==> d * m >= m
    ensures d <= -1 ==> d * m <= -m
  {
  }

  lemma ModUnique(n: nat, m: nat, q: nat, r: nat)
    requires m > 0 && r < m && n == q * m + r
    ensures n % m == r
  {
    var d := n / m - q;
    assert d * m == r - n % m;
    MulGrows(d, m);
  }

  lemma DivMod256(b: byte, m: nat)
    ensures (b + 256 * m) % 256 == b && (b + 256 * m) / 256 == m
  {
  }

  lemma {:induction false} FromLeInverse(bs: Text)
    ensures Le(FromLe(bs), |bs|) == bs
  {
    if bs != [] {
      FromLeInverse(bs[1..]);
      DivMod256(bs[0], FromLe(bs[1..]));
    }
  }

  lemma Widths()
    ensures Pow256(2) == U16_LIMIT && Pow256(4) == U32_LIMIT && Pow256(8) == U64_LIMIT
  {
    assert Pow256(4) == 256 * (256 * (256 * (256 * Pow256(0))));
    assert Pow256(8) == 256 * (256 * (256 * (256 * Pow256(4))));
  }

  // ---------------------------------------------------------------- fields

  /** The field types of a scheme: plain data, `std::string`, and `std::vector` of plain data. */
  datatype FieldType = Pod(width: nat) | Str | Vec(elem: nat)

  datatype Field = PodV(raw: Text) | StrV(text: Text) | VecV(items: seq<Text>)

  ghost predicate AllWide<T>(items: seq<seq<T>>, e: nat) {
    forall i :: 0 <= i < |items| ==> |items[i]| == e
  }

  ghost predicate HasType(f: Field, t: FieldType) {
    match t
    case Pod(w) => f.PodV? && |f.raw| == w
    case Str => f.StrV?
    case Vec(e) => f.VecV? && AllWide(f.items, e)
  }

  ghost predicate HaveTypes(fs: seq<Field>, ts: seq<FieldType>) {
    |fs| == |ts| && forall i :: 0 <= i < |fs| ==> HasType(fs[i], ts[i])
  }

  /** The length of a field that is written through a 32-bit counter. */
  function Count(f: Field): nat {
    match f
    case PodV(_) => 0
    case StrV(text) => |text|
    case VecV(items) => |items|
  }

  ghost predicate Fits(fs: seq<Field>) {
    forall i :: 0 <= i < |fs| ==> Count(fs[i]) < U32_LIMIT
  }

  function Flat<T>(items: seq<seq<T>>): seq<T> {
    if items == [] then [] else items[0] + Flat(items[1..])
  }

  lemma {:induction false} FlatConcat<T>(a: seq<seq<T>>, b: seq<seq<T>>)
    ensures Flat(a + b) == Flat(a) + Flat(b)
  {
    if a == [] {
      assert a + b == b;
    } else {
      assert (a + b)[1..] == a[1..] + b;
      FlatConcat(a[1..], b);
    }
  }

  function Size(f: Field): nat {
    match f
    case PodV(raw) => |raw|
    case StrV(text) => 4 + |text|
    case VecV(items) => 4 + |Flat(items)|
  }

  function WriteField(f: Field): (bs: Text)
    ensures |bs| == Size(f)
  {
    match f
    case PodV(raw) => raw
    case StrV(text) => Le(|text| % U32_LIMIT, 4) + text
    case VecV(items) => Le(|items| % U32_LIMIT, 4) + Flat(items)
  }

  function Capacity(fs: seq<Field>): nat {
    if fs == [] then 0 else Size(fs[0]) + Capacity(fs[1..])
  }

  function Encode(fs: seq<Field>): (bs: Text)
    ensures |bs| == Capacity(fs)
  {
    if fs == [] then [] else WriteField(fs[0]) + Encode(fs[1..])
  }

  /** The next `n` elements of `e` bytes each and what follows; `None` where the bytes run out. */
  function ReadItems<T>(bs: seq<T>, e: nat, n: nat): Option<(seq<seq<T>>, seq<T>)>
    decreases n
  {
    if n == 0 then Some(([], bs))
    else if |bs| < e then None
    else
      match ReadItems(bs[e..], e, n - 1)
      case None => None
      case Some((items, rest)) => Some(([bs[..e]] + items, rest))
  }

  /** Reading one field: its value and what follows; `None` where the bytes run out. */
  function ReadField(t: FieldType, bs: Text): Option<(Field, Text)> {
    match t
    case Pod(w) => if |bs| < w then None else Some((PodV(bs[..w]), bs[w..]))
    case Str => if |bs| < 4 then None else ReadStr(FromLe(bs[..4]), bs[4..])
    case Vec(e) => if |bs| < 4 then None else ReadVec(e, FromLe(bs[..4]), bs[4..])
  }

  function ReadStr(len: nat, bs: Text): Option<(Field, Text)> {
    if |bs| < len then None else Some((StrV(bs[..len]), bs[len..]))
  }

  function ReadVec(e: nat, len: nat, bs: Text): Option<(Field, Text)> {
    match ReadItems(bs, e, len)
    case None => None
    case Some((items, rest)) => Some((VecV(items), rest))
  }

  function Decode(ts: seq<FieldType>, bs: Text): Option<(seq<Field>, Text)> {
    if ts == [] then Some(([], bs))
    else
      match ReadField(ts[0], bs)
      case None => None
      case Some((f, more)) =>
        match Decode(ts[1..], more)
        case None => None
        case Some((fs, rest)) => Some(([f] + fs, rest))
  }

  // ---------------------------------------------------------------- round trips

  /** A vector takes its element size times its length. */
  lemma {:induction false} FlatLength<T>(items: seq<seq<T>>, e: nat)
    requires AllWide(items, e)
    ensures |Flat(items)| == |items| * e
  {
    if items != [] {
      FlatLength(items[1..], e);
      var n := |items[1..]|;
      assert |items| == n + 1 && (n + 1) * e == e + n * e;
    }
  }

  lemma ReadItemsStep<T>(head: seq<T>, bs: seq<T>, n: nat)
    requires n > 0
    ensures ReadItems(head + bs, |head|, n) ==
            var r := ReadItems(bs, |head|, n - 1); if r.None? then None else Some(([head] + r.value.0, r.value.1))
  {
    assert (head + bs)[..|head|] == head && (head + bs)[|head|..] == bs;
  }

  lemma {:induction false} ReadItemsBack<T>(items: seq<seq<T>>, e: nat, rest: seq<T>)
    requires AllWide(items, e)
    ensures ReadItems(Flat(items) + rest, e, |items|) == Some((items, rest))
  {
    if items == [] {
      assert Flat(items) + rest == rest;
    } else {
      var head, tail := items[0], items[1..];
      var more := Flat(tail) + rest;
      ReadItemsBack(tail, e, rest);
      ReadItemsStep(head, more, |items|);
      Regroup(head, Flat(tail), rest);
      assert items == [head] + tail;
    }
  }

  /** Putting an element of the right width in front of canonical items. */
  lemma OneMoreItem<T>(head: seq<T>, items: seq<seq<T>>, rest: seq<T>)
    requires AllWide(items, |head|)
    ensures AllWide([head] + items, |head|) && Flat([head] + items) + rest == head + (Flat(items) + rest)
  {
    assert ([head] + items)[1..] == items;
    Regroup(head, Flat(items), rest);
  }

  lemma {:induction false} ItemsAreCanonical<T>(bs: seq<T>, e: nat, n: nat)
    ensures var r := ReadItems(bs, e, n);
            r.Some? ==> |r.value.0| == n && Flat(r.value.0) + r.value.1 == bs && AllWide(r.value.0, e)
    decreases n
  {
    if n > 0 && |bs| >= e {
      var head, tail := bs[..e], bs[e..];
      assert bs == head + tail;
      ItemsAreCanonical(tail, e, n - 1);
      ReadItemsStep(head, tail, n);
      var r := ReadItems(tail, e, n - 1);
      if r.Some? {
        OneMoreItem(head, r.value.0, r.value.1);
      }
    }
  }

  /** A counter written in front of `body` reads back modulo 2^32. */
  lemma CountBack(n: nat, body: Text)
    ensures var bs := Le(n % U32_LIMIT, 4) + body; FromLe(bs[..4]) == n % U32_LIMIT && bs[4..] == body
  {
    assert (Le(n % U32_LIMIT, 4) + body)[..4] == Le(n % U32_LIMIT, 4);
    LeTruncates(n % U32_LIMIT, 4);
    Widths();
  }

  lemma StrBack(len: nat, text: Text, rest: Text)
    requires len <= |text|
    ensures ReadStr(len, text + rest) == Some((StrV(text), rest)) <==> len == |text|
  {
    if len == |text| {
      assert (text + rest)[..len] == text;
    }
  }

  lemma VecBack(e: nat, len: nat, items: seq<Text>, rest: Text)
    requires AllWide(items, e)
    ensures ReadVec(e, len, Flat(items) + rest) == Some((VecV(items), rest)) <==> len == |items|
  {
    ReadItemsBack(items, e, rest);
    ItemsAreCanonical(Flat(items) + rest, e, len);
  }

  lemma StrRoundTrip(text: Text, rest: Text)
    ensures ReadField(Str, WriteField(StrV(text)) + rest) == Some((StrV(text), rest)) <==> |text| < U32_LIMIT
  {
    var count, body := Le(|text| % U32_LIMIT, 4), text + rest;
    assert WriteField(StrV(text)) + rest == count + body;
    CountBack(|text|, body);
    StrBack(|text| % U32_LIMIT, text, rest);
  }

  lemma VecRoundTrip(items: seq<Text>, e: nat, rest: Text)
    requires AllWide(items, e)
    ensures ReadField(Vec(e), WriteField(VecV(items)) + rest) == Some((VecV(items), rest)) <==> |items| < U32_LIMIT
  {
    var count, body := Le(|items| % U32_LIMIT, 4), Flat(items) + rest;
    assert WriteField(VecV(items)) + rest == count + body;
    CountBack(|items|, body);
    VecBack(e, |items| % U32_LIMIT, items, rest);
  }

  /** Reading a field back gives it exactly when its length fits the 32-bit counter. */
  lemma FieldRoundTrip(f: Field, t: FieldType, rest: Text)
    requires HasType(f, t)
    ensures ReadField(t, WriteField(f) + rest) == Some((f, rest)) <==> Count(f) < U32_LIMIT
  {
    match f {
      case PodV(raw) => assert (raw + rest)[..t.width] == raw && (raw + rest)[t.width..] == rest;
      case StrV(text) => StrRoundTrip(text, rest);
      case VecV(items) => VecRoundTrip(items, t.elem, rest);
    }
  }

  lemma SplitFits(f: Field, fs: seq<Field>)
    ensures Fits([f] + fs) <==> Count(f) < U32_LIMIT && Fits(fs)
  {
    assert ([f] + fs)[0] == f;
    assert forall i :: 0 <= i < |fs| ==> ([f] + fs)[i + 1] == fs[i];
    if Fits([f] + fs) {
      forall i | 0 <= i < |fs| ensures Count(fs[i]) < U32_LIMIT {
        assert ([f] + fs)[i + 1] == fs[i];
      }
    }
  }

  lemma DecodeStep(t: FieldType, ts: seq<FieldType>, bs: Text)
    ensures Decode([t] + ts, bs) ==
            var r := ReadField(t, bs);
            if r.None? then None
            else
              var d := Decode(ts, r.value.1);
              if d.None? then None else Some(([r.value.0] + d.value.0, d.value.1))
  {
    assert ([t] + ts)[1..] == ts;
  }

  /** One field of the round trip, given the rest. */
  lemma RoundTripStep(f: Field, t: FieldType, fs: seq<Field>, ts: seq<FieldType>, tail: Text, rest: Text)
    requires HasType(f, t) && (Decode(ts, tail) == Some((fs, rest)) <==> Fits(fs))
    ensures Decode([t] + ts, WriteField(f) + tail) == Some(([f] + fs, rest)) <==> Fits([f] + fs)
  {
    FieldRoundTrip(f, t, tail);
    DecodeStep(t, ts, WriteField(f) + tail);
    SplitFits(f, fs);
    LongFieldStaysWrong(f, t, tail);
    assert ([f] + fs)[0] == f && ([f] + fs)[1..] == fs;
    var d := Decode([t] + ts, WriteField(f) + tail);
    if Count(f) < U32_LIMIT && Decode(ts, tail).Some? {
      assert d.value.0[1..] == Decode(ts, tail).value.0;
    }
  }

  /** Schema round trip: an encoding followed by anything decodes to the same fields and leaves what
   *  follows, if and only if every length fits its 32-bit counter. */
  lemma {:induction false} RoundTrip(fs: seq<Field>, ts: seq<FieldType>, rest: Text)
    requires HaveTypes(fs, ts)
    ensures Decode(ts, Encode(fs) + rest) == Some((fs, rest)) <==> Fits(fs)
  {
    if fs == [] {
      assert Encode(fs) + rest == rest;
    } else {
      var f, t, tail := fs[0], ts[0], Encode(fs[1..]) + rest;
      RoundTrip(fs[1..], ts[1..], rest);
      RoundTripStep(f, t, fs[1..], ts[1..], tail, rest);
      Regroup(WriteField(f), Encode(fs[1..]), rest);
      assert fs == [f] + fs[1..] && ts == [t] + ts[1..];
    }
  }

  /** A field that does not fit is not read back with any other remainder either. */
  lemma LongFieldStaysWrong(f: Field, t: FieldType, tail: Text)
    requires HasType(f, t)
    ensures Count(f) >= U32_LIMIT ==>
            var r := ReadField(t, WriteField(f) + tail); r.Some? ==> r.value.0 != f
  {
    if Count(f) >= U32_LIMIT {
      FieldIsCanonical(t, WriteField(f) + tail);
    }
  }

  /** Encodings of one scheme are prefix-free, hence injective. */
  lemma EncodingsArePrefixFree(a: seq<Field>, b: seq<Field>, ts: seq<FieldType>, rest: Text)
    requires HaveTypes(a, ts) && HaveTypes(b, ts) && Fits(a) && Fits(b)
    requires Encode(b) == Encode(a) + rest
    ensures a == b && rest == []
  {
    RoundTrip(a, ts, rest);
    RoundTrip(b, ts, []);
    assert Encode(b) + [] == Encode(b);
  }

  /** A counter read from four bytes is written as those bytes. */
  lemma CounterIsCanonical(bs: Text)
    requires |bs| >= 4
    ensures FromLe(bs[..4]) < U32_LIMIT && bs == Le(FromLe(bs[..4]), 4) + bs[4..]
  {
    Widths();
    FromLeBound(bs[..4]);
    FromLeInverse(bs[..4]);
  }

  lemma StrBytes(text: Text, len: nat)
    requires len == |text| < U32_LIMIT
    ensures WriteField(StrV(text)) == Le(len, 4) + text
  {
  }

  lemma StrBodyIsCanonical(len: nat, rest: Text)
    requires len < U32_LIMIT && len <= |rest|
    ensures var r := ReadStr(len, rest).value;
            Count(r.0) < U32_LIMIT && WriteField(r.0) + r.1 == Le(len, 4) + rest
  {
    var counter, text, more := Le(len, 4), rest[..len], rest[len..];
    StrBytes(text, len);
    assert rest == text + more;
    Regroup(counter, text, more);
  }

  lemma VecBodyIsCanonical(e: nat, len: nat, rest: Text)
    requires len < U32_LIMIT && ReadVec(e, len, rest).Some?
    ensures var r := ReadVec(e, len, rest).value;
            HasType(r.0, Vec(e)) && Count(r.0) < U32_LIMIT && WriteField(r.0) + r.1 == Le(len, 4) + rest
  {
    ItemsAreCanonical(rest, e, len);
    var r := ReadItems(rest, e, len).value;
    Regroup(Le(len, 4), Flat(r.0), r.1);
  }

  lemma FieldIsCanonical(t: FieldType, bs: Text)
    ensures var r := ReadField(t, bs);
            r.Some? ==> HasType(r.value.0, t) && Count(r.value.0) < U32_LIMIT && WriteField(r.value.0) + r.value.1 == bs
  {
    match t
    case Pod(width) => assert |bs| >= width ==> bs[..width] + bs[width..] == bs;
    case Str =>
      if |bs| >= 4 {
        CounterIsCanonical(bs);
        if |bs[4..]| >= FromLe(bs[..4]) {
          StrBodyIsCanonical(FromLe(bs[..4]), bs[4..]);
        }
      }
    case Vec(e) =>
      if |bs| >= 4 {
        CounterIsCanonical(bs);
        if ReadVec(e, FromLe(bs[..4]), bs[4..]).Some? {
          VecBodyIsCanonical(e, FromLe(bs[..4]), bs[4..]);
        }
      }
  }

  /** Decoding accepts nothing but encodings: what was read, written again, is what was consumed. */
  lemma {:induction false} DecodingIsCanonical(ts: seq<FieldType>, bs: Text)
    ensures var r := Decode(ts, bs);
            r.Some? ==> HaveTypes(r.value.0, ts) && Fits(r.value.0) && Encode(r.value.0) + r.value.1 == bs
  {
    if ts != [] {
      FieldIsCanonical(ts[0], bs);
      var r := ReadField(ts[0], bs);
      if r.Some? {
        DecodingIsCanonical(ts[1..], r.value.1);
        var d := Decode(ts[1..], r.value.1);
        if d.Some? {
          assert ([r.value.0] + d.value.0)[1..] == d.value.0;
          SplitFits(r.value.0, d.value.0);
        }
      }
    }
  }

  // ---------------------------------------------------------------- the in-place writer

  /** `s` with `part` written over it from index `at` on, as `memcpy` does. */
  function Splice<T>(s: seq<T>, at: nat, part: seq<T>): (r: seq<T>)
    requires at + |part| <= |s|
    ensures |r| == |s| && r[at..at + |part|] == part
    ensures r[..at] == s[..at] && r[at + |part|..] == s[at + |part|..]
  {
    s[..at] + part + s[at + |part|..]
  }

  lemma SpliceTwice<T>(s: seq<T>, at: nat, a: seq<T>, b: seq<T>)
    requires at + |a| + |b| <= |s|
    ensures Splice(Splice(s, at, a), at + |a|, b) == Splice(s, at, a + b)
  {
  }

  /** `memcpy`. */
  method Memcpy<T>(dst: array<T>, at: nat, src: seq<T>)
    requires at + |src| <= dst.Length
    modifies dst
    ensures dst[..] == Splice(old(dst[..]), at, src)
  {
    var i := 0;
    while i < |src|
      invariant i <= |src|
      invariant forall k :: 0 <= k < dst.Length ==> dst[k] == if at <= k < at + i then src[k - at] else old(dst[k])
    {
      dst[at + i] := src[i];
      i := i + 1;
    }
  }

  /** A 32-bit counter, then the bytes it announces. */
  method WriteCounted(dst: array<byte>, at: nat, count: nat, body: Text) returns (n: nat)
    requires at + 4 + |body| <= dst.Length
    modifies dst
    ensures n == 4 + |body|
    ensures dst[..] == Splice(old(dst[..]), at, Le(count % U32_LIMIT, 4) + body)
  {
    var prefix := Le(count % U32_LIMIT, 4);
    SpliceTwice(dst[..], at, prefix, body);
    Memcpy(dst, at, prefix);
    Memcpy(dst, at + 4, body);
    n := 4 + |body|;
  }

  method WriteValue(dst: array<byte>, at: nat, f: Field) returns (n: nat)
    requires at + Size(f) <= dst.Length
    modifies dst
    ensures n == Size(f)
    ensures dst[..] == Splice(old(dst[..]), at, WriteField(f))
  {
    match f {
      case PodV(raw) =>
        Memcpy(dst, at, raw);
        n := |raw|;
      case StrV(text) => n := WriteCounted(dst, at, |text|, text);
      case VecV(items) => n := WriteCounted(dst, at, |items|, Flat(items));
    }
  }

  /** `Scheme::write`, advancing by recursion: it writes the encoding and touches nothing else. */
  method WriteArgs(dst: array<byte>, at: nat, fs: seq<Field>)
    requires at + Capacity(fs) <= dst.Length
    modifies dst
    ensures dst[..] == Splice(old(dst[..]), at, Encode(fs))
    decreases |fs|
  {
    if fs != [] {
      SpliceTwice(dst[..], at, WriteField(fs[0]), Encode(fs[1..]));
      var n := WriteValue(dst, at, fs[0]);
      WriteArgs(dst, at + n, fs[1..]);
    }
  }
}
