/** Types shared by the client, the broker, the server and the wire format. */
module Basics {

  datatype Option<+T> = None | Some(value: T)

  type byte = x: int | 0 <= x < 256

  /** A `std::string` or a `std::vector<uint8_t>`: uninterpreted bytes. */
  type Text = seq<byte>

  const U16_LIMIT: nat := 0x1_0000
  const U31_LIMIT: nat := 0x8000_0000
  const U32_LIMIT: nat := 0x1_0000_0000
  const U64_LIMIT: nat := 0x1_0000_0000_0000_0000

  /** `std::numeric_limits<int>::max()`, the user id of the server itself. */
  const SERVER_ID: nat := 0x7FFF_FFFF

  datatype SubscriptionParams = SubscriptionParams(queueName: Text, tag: Text)

  datatype PublishParams = PublishParams(queueName: Text, tag: Text)

  /** The ids `0 .. n - 1`, in the order a counter starting at zero issues them. */
  function Ids(n: nat): (ids: set<nat>)
    ensures forall i: nat :: i in ids <==> i < n
  {
    if n == 0 then {} else Ids(n - 1) + {n - 1}
  }

  lemma Regroup<T>(a: seq<T>, b: seq<T>, c: seq<T>)
    ensures a + (b + c) == (a + b) + c
  {
  }

  /** The sum of `f` over a sequence. */
  function Total<T>(ts: seq<T>, f: T -> nat): nat {
    if ts == [] then 0 else f(ts[0]) + Total(ts[1..], f)
  }

  lemma {:induction false} TotalUpdate<T>(ts: seq<T>, f: T -> nat, i: nat, t: T)
    requires i < |ts|
    ensures Total(ts[i := t], f) + f(ts[i]) == Total(ts, f) + f(t)
  {
    if i == 0 {
      assert ts[0 := t][1..] == ts[1..];
    } else {
      assert ts[i := t][1..] == ts[1..][i - 1 := t];
      TotalUpdate(ts[1..], f, i - 1, t);
    }
  }

  lemma {:induction false} TotalSame<T>(a: seq<T>, b: seq<T>, f: T -> nat)
    requires |a| == |b| && forall i :: 0 <= i < |a| ==> f(a[i]) == f(b[i])
    ensures Total(a, f) == Total(b, f)
  {
    if a != [] {
      TotalSame(a[1..], b[1..], f);
    }
  }
}
