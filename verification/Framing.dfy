/** The byte layouts on the links. Between proxy and actors, and in replies to remote
    clients: a tag, a length of four bytes in network order, a payload
    (src/coro_actor.cpp:490-511, 688-698, 856-881; src/coro_actor_ctx.cpp:67-79,
    163-197). From remote clients: a name length of two bytes, the name, a type, a
    length of four bytes, the data (src/coro_actor_session.cpp:30-94). */
module Framing {
  import opened Protocol

  // ---------------------------------------------------------- network order

  function Power(k: nat): (p: nat)
    ensures p > 0
  {
    if k == 0 then 1 else 256 * Power(k - 1)
  }

  /** The low `k` bytes of `n`, most significant first (`host_to_network_*`). */
  function NetworkOrder(n: nat, k: nat): (s: seq<byte>)
    ensures |s| == k
  {
    if k == 0 then [] else NetworkOrder(n / 256, k - 1) + [n % 256]
  }

  /** `network_to_host_*`. */
  function HostOrder(s: seq<byte>): nat {
    if s == [] then 0 else 256 * HostOrder(s[..|s| - 1]) + s[|s| - 1]
  }

  lemma Monotone(d: nat, a: nat, b: nat)
    ensures a <= b ==> d * a <= d * b
  {
  }

  lemma Remainder(n: nat, d: nat, q: nat, r: nat)
    requires n == d * q + r && r < d
    ensures n % d == r
  {
    Monotone(d, n / d + 1, q);
    Monotone(d, q + 1, n / d);
  }

  lemma SplitRemainder(n: nat, p: nat)
    requires p > 0
    ensures n % (256 * p) == 256 * ((n / 256) % p) + n % 256
  {
    var a, b := n / 256, n % 256;
    var q, r := a / p, a % p;
    calc {
      n;
      256 * a + b;
      { assert a == p * q + r; }
      256 * (p * q + r) + b;
      256 * p * q + (256 * r + b);
    }
    assert 256 * r + b < 256 * p;
    Remainder(n, 256 * p, q, 256 * r + b);
  }

  /** What `k` bytes bring back: the number without its higher bytes. */
  lemma {:induction false} OrderReadsBack(n: nat, k: nat)
    ensures HostOrder(NetworkOrder(n, k)) == n % Power(k)
  {
    if k > 0 {
      OrderReadsBack(n / 256, k - 1);
      SplitRemainder(n, Power(k - 1));
      var s := NetworkOrder(n, k);
      assert s[..|s| - 1] == NetworkOrder(n / 256, k - 1);
    }
  }

  lemma Powers()
    ensures Power(0) == 1 && Power(1) == 0x100 && Power(2) == 0x1_0000 && Power(3) == 0x100_0000
    ensures Power(4) == 0x1_0000_0000
  {
    assert Power(3) == 256 * Power(2);
  }

  lemma DivideTwice(n: nat, p: nat)
    requires p > 0
    ensures n / 256 / p == n / (256 * p)
  {
    var a, b := n / 256, n % 256;
    var q, r := a / p, a % p;
    calc {
      n;
      256 * a + b;
      { assert a == p * q + r; }
      256 * (p * q + r) + b;
      256 * p * q + (256 * r + b);
    }
    assert 256 * r + b < 256 * p;
    Quotient(n, 256 * p, q, 256 * r + b);
  }

  lemma Quotient(n: nat, d: nat, q: nat, r: nat)
    requires n == d * q + r && r < d
    ensures n / d == q
  {
    Monotone(d, n / d + 1, q);
    Monotone(d, q + 1, n / d);
  }

  /** The byte at the front is the most significant one: byte `i` of `k` weighs
      256^(k - 1 - i). */
  lemma {:induction false} NetworkOrderIs(n: nat, k: nat, i: nat)
    requires i < k
    ensures NetworkOrder(n, k)[i] == n / Power(k - 1 - i) % 256
  {
    if i < k - 1 {
      NetworkOrderIs(n / 256, k - 1, i);
      DivideTwice(n, Power(k - 2 - i));
    }
  }

  /** And that is how it is read: the front byte weighs 256 to the number of the others. */
  lemma {:induction false} HostOrderIs(b: byte, s: seq<byte>)
    ensures HostOrder([b] + s) == b * Power(|s|) + HostOrder(s)
  {
    var t := [b] + s;
    if s == [] {
      assert t[..0] == [];
    } else {
      var less := s[..|s| - 1];
      assert t[..|t| - 1] == [b] + less && t[|t| - 1] == s[|s| - 1];
      HostOrderIs(b, less);
      assert 256 * (b * Power(|less|)) == b * Power(|s|);
    }
  }

  lemma HostOrderBytes(s: seq<byte>)
    ensures |s| == 2 ==> HostOrder(s) == 0x100 * (s[0] as int) + s[1]
    ensures |s| == 4 ==>
              HostOrder(s) == 0x100_0000 * (s[0] as int) + 0x1_0000 * (s[1] as int) + 0x100 * (s[2] as int) + s[3]
  {
    Powers();
    hide Power;
    if |s| == 2 {
      LastByte(s);
      LastByte(s[..1]);
    } else if |s| == 4 {
      LastByte(s);
      LastByte(s[..3]);
      assert s[..3][..2] == s[..2];
      LastByte(s[..2]);
      assert s[..2][..1] == s[..1];
      LastByte(s[..1]);
    }
  }

  lemma LastByte(s: seq<byte>)
    requires s != []
    ensures HostOrder(s) == 256 * HostOrder(s[..|s| - 1]) + s[|s| - 1]
  {
  }

  // ------------------------------------------------------------ tagged frames

  datatype Tagged = Tagged(tag: byte, payload: Text)

  /** The three buffers of one gathered write. The length is cut to 32 bits. */
  function Layout(f: Tagged): seq<byte> {
    [f.tag] + NetworkOrder(|f.payload|, 4) + f.payload
  }

  function LayoutAll(frames: seq<Tagged>): seq<byte> {
    if frames == [] then [] else Layout(frames[0]) + LayoutAll(frames[1..])
  }

  /** A complete frame is at the front of the stream. */
  predicate Complete(s: seq<byte>) {
    |s| >= 5 && |s| >= 5 + HostOrder(s[1..5])
  }

  function Front(s: seq<byte>): Tagged
    requires Complete(s)
  {
    Tagged(s[0], s[5..5 + HostOrder(s[1..5])])
  }

  function Beyond(s: seq<byte>): seq<byte>
    requires Complete(s)
  {
    s[5 + HostOrder(s[1..5])..]
  }

  /** What a reader gets out of a stream before it ends. */
  function Frames(s: seq<byte>): seq<Tagged> {
    if Complete(s) then [Front(s)] + Frames(Beyond(s)) else []
  }

  /** The reader loop: three exact reads a frame, the end of the stream an error. */
  method ReadFrames(stream: seq<byte>) returns (frames: seq<Tagged>)
    ensures frames == Frames(stream)
  {
    frames := [];
    var at := 0;
    assert stream[0..] == stream;
    hide *;
    while |stream| - at >= 1
      invariant at <= |stream| && Frames(stream) == frames + Frames(stream[at..])
      decreases |stream| - at
    {
      FrameAt(stream, at);
      var tag := stream[at];
      if |stream| < at + 5 {
        return;
      }
      var end := at + 5 + HostOrder(stream[at + 1..at + 5]);
      if |stream| < end {
        return;
      }
      Regroup(frames, Tagged(tag, stream[at + 5..end]), Frames(stream[end..]));
      frames := frames + [Tagged(tag, stream[at + 5..end])];
      at := end;
    }
    FramesShort(stream[at..]);
  }

  /** The frame at `at`, read off the stream itself. */
  lemma FrameAt(s: seq<byte>, at: nat)
    requires at <= |s|
    ensures if at + 5 > |s| then Frames(s[at..]) == [] else
              var end := at + 5 + HostOrder(s[at + 1..at + 5]);
              if end > |s| then Frames(s[at..]) == []
              else Frames(s[at..]) == [Tagged(s[at], s[at + 5..end])] + Frames(s[end..])
  {
    hide HostOrder;
    var left := s[at..];
    if at + 5 <= |s| {
      assert left[1..5] == s[at + 1..at + 5];
      var n := 5 + HostOrder(left[1..5]);
      if n <= |left| {
        assert left[5..n] == s[at + 5..at + n] && left[n..] == s[at + n..];
      }
    }
  }

  lemma Regroup<T>(done: seq<T>, x: T, more: seq<T>)
    ensures done + ([x] + more) == (done + [x]) + more
  {
  }

  /** A frame as bytes: its tag, its length with the highest byte first, its payload. */
  lemma LayoutBytes(f: Tagged)
    ensures var s, n := Layout(f), |f.payload|;
            && |s| == 5 + n && s[0] == f.tag && s[5..] == f.payload
            && s[1] == n / 0x100_0000 % 256 && s[2] == n / 0x1_0000 % 256 && s[3] == n / 0x100 % 256 && s[4] == n % 256
  {
    var n := |f.payload|;
    Powers();
    NetworkOrderIs(n, 4, 0);
    NetworkOrderIs(n, 4, 1);
    NetworkOrderIs(n, 4, 2);
    NetworkOrderIs(n, 4, 3);
    hide Power, NetworkOrder;
  }

  /** What is read off the front of a stream, byte by byte. */
  lemma FrontBytes(s: seq<byte>)
    ensures Complete(s) <==>
              && |s| >= 5
              && |s| >= 5 + 0x100_0000 * (s[1] as int) + 0x1_0000 * (s[2] as int) + 0x100 * (s[3] as int) + s[4]
    ensures Complete(s) ==> Front(s).tag == s[0] && s == [s[0]] + s[1..5] + Front(s).payload + Beyond(s)
    ensures Complete(s) ==>
              |Front(s).payload|
              == 0x100_0000 * (s[1] as int) + 0x1_0000 * (s[2] as int) + 0x100 * (s[3] as int) + s[4]
  {
    if |s| >= 5 {
      HostOrderBytes(s[1..5]);
    }
    hide HostOrder;
  }

  lemma FramesShort(s: seq<byte>)
    requires |s| < 1
    ensures Frames(s) == []
  {
  }

  lemma LayoutParts(f: Tagged, more: seq<byte>)
    ensures var s := Layout(f) + more;
            && |s| == 5 + |f.payload| + |more| && s[0] == f.tag
            && HostOrder(s[1..5]) == |f.payload| % 0x1_0000_0000 && s[5..] == f.payload + more
  {
    var s := Layout(f) + more;
    OrderReadsBack(|f.payload|, 4);
    Powers();
    assert s[1..5] == NetworkOrder(|f.payload|, 4);
  }

  /** One frame is read back, and exactly it is consumed, if and only if its payload
      has fewer than 2^32 bytes: otherwise its length is cut. */
  lemma FrameReadsBack(f: Tagged, more: seq<byte>)
    ensures Complete(Layout(f) + more)
    ensures Front(Layout(f) + more) == f && Beyond(Layout(f) + more) == more <==> |f.payload| < 0x1_0000_0000
  {
    LayoutParts(f, more);
    var s, n := Layout(f) + more, |f.payload| % 0x1_0000_0000;
    assert s[5..5 + n] == (f.payload + more)[..n] == f.payload[..n];
    assert s[5 + n..] == (f.payload + more)[n..];
    if |f.payload| < 0x1_0000_0000 {
      assert f.payload[..n] == f.payload && (f.payload + more)[n..] == more;
    } else {
      assert |Front(s).payload| == n < |f.payload|;
    }
  }

  lemma ConsAppend<T>(xs: seq<T>, more: seq<T>)
    requires xs != []
    ensures [xs[0]] + (xs[1..] + more) == xs + more
  {
  }

  lemma FramesStep(s: seq<byte>)
    requires Complete(s)
    ensures Frames(s) == [Front(s)] + Frames(Beyond(s))
  {
  }

  /** Any list of frames, written one after the other, is read back as that list,
      whatever comes after it. */
  lemma {:induction false} FramesReadBack(frames: seq<Tagged>, more: seq<byte>)
    requires forall i :: 0 <= i < |frames| ==> |frames[i].payload| < 0x1_0000_0000
    ensures Frames(LayoutAll(frames) + more) == frames + Frames(more)
  {
    if frames == [] {
      assert LayoutAll(frames) + more == more;
    } else {
      var rest := LayoutAll(frames[1..]) + more;
      assert LayoutAll(frames) + more == Layout(frames[0]) + rest;
      hide *;
      FrameReadsBack(frames[0], rest);
      FramesStep(Layout(frames[0]) + rest);
      FramesReadBack(frames[1..], more);
      ConsAppend(frames, Frames(more));
    }
  }

  // ------------------------------------------------------- requests of clients

  datatype Call = Call(service: Text, kind: byte, data: Text)

  function CallLayout(c: Call): seq<byte> {
    NetworkOrder(|c.service|, 2) + c.service + [c.kind] + NetworkOrder(|c.data|, 4) + c.data
  }

  function CallLayouts(calls: seq<Call>): seq<byte> {
    if calls == [] then [] else CallLayout(calls[0]) + CallLayouts(calls[1..])
  }

  function NameEnd(s: seq<byte>): nat
    requires |s| >= 2
  {
    2 + HostOrder(s[..2])
  }

  predicate CallComplete(s: seq<byte>) {
    && |s| >= 2 && |s| >= NameEnd(s) + 5
    && |s| >= NameEnd(s) + 5 + HostOrder(s[NameEnd(s) + 1..NameEnd(s) + 5])
  }

  function CallEnd(s: seq<byte>): nat
    requires CallComplete(s)
  {
    NameEnd(s) + 5 + HostOrder(s[NameEnd(s) + 1..NameEnd(s) + 5])
  }

  function FrontCall(s: seq<byte>): Call
    requires CallComplete(s)
  {
    Call(s[2..NameEnd(s)], s[NameEnd(s)], s[NameEnd(s) + 5..CallEnd(s)])
  }

  function Calls(s: seq<byte>): seq<Call> {
    if CallComplete(s) then [FrontCall(s)] + Calls(s[CallEnd(s)..]) else []
  }

  /** A request of a client as bytes: the length of the service name and the name, the
      kind, the length of the data and the data, lengths with the highest byte first. */
  lemma CallBytes(c: Call)
    ensures var s, m, n := CallLayout(c), |c.service|, |c.data|;
            && |s| == 2 + m + 5 + n
            && s[0] == m / 0x100 % 256 && s[1] == m % 256 && s[2..2 + m] == c.service && s[2 + m] == c.kind
            && s[3 + m] == n / 0x100_0000 % 256 && s[4 + m] == n / 0x1_0000 % 256 && s[5 + m] == n / 0x100 % 256
            && s[6 + m] == n % 256 && s[7 + m..] == c.data
  {
    var m, n := |c.service|, |c.data|;
    Powers();
    NetworkOrderIs(m, 2, 0);
    NetworkOrderIs(m, 2, 1);
    NetworkOrderIs(n, 4, 0);
    NetworkOrderIs(n, 4, 1);
    NetworkOrderIs(n, 4, 2);
    NetworkOrderIs(n, 4, 3);
    hide Power, NetworkOrder;
  }

  /** What is read off the front of a client's stream, byte by byte. */
  lemma FrontCallBytes(s: seq<byte>)
    requires CallComplete(s)
    ensures var c := FrontCall(s);
            var m := |c.service|;
            && m == 0x100 * (s[0] as int) + s[1] && CallEnd(s) == 7 + m + |c.data| <= |s|
            && c.service == s[2..2 + m] && c.kind == s[2 + m] && c.data == s[7 + m..CallEnd(s)]
            && |c.data| == 0x100_0000 * (s[3 + m] as int) + 0x1_0000 * (s[4 + m] as int) + 0x100 * (s[5 + m] as int)
                           + s[6 + m]
  {
    HostOrderBytes(s[..2]);
    HostOrderBytes(s[NameEnd(s) + 1..NameEnd(s) + 5]);
    hide HostOrder;
  }

  lemma CallsStep(s: seq<byte>)
    ensures Calls(s) == if CallComplete(s) then [FrontCall(s)] + Calls(s[CallEnd(s)..]) else []
  {
  }

  /** The request at `at`, read off the stream itself. */
  lemma CallAt(s: seq<byte>, at: nat)
    requires at + 2 <= |s|
    ensures NameEnd(s[at..]) == 2 + HostOrder(s[at..at + 2])
    ensures var end := at + NameEnd(s[at..]);
            if end + 5 > |s| then !CallComplete(s[at..]) else
              var last := end + 5 + HostOrder(s[end + 1..end + 5]);
              && (CallComplete(s[at..]) <==> last <= |s|)
              && (last <= |s| ==> at + CallEnd(s[at..]) == last
                                  && FrontCall(s[at..]) == Call(s[at + 2..end], s[end], s[end + 5..last]))
  {
    hide HostOrder;
    var left := s[at..];
    assert left[..2] == s[at..at + 2];
    var n := NameEnd(left);
    if at + n + 5 <= |s| {
      assert left[n + 1..n + 5] == s[at + n + 1..at + n + 5];
      var last := n + 5 + HostOrder(left[n + 1..n + 5]);
      if last <= |left| {
        assert left[2..n] == s[at + 2..at + n] && left[n + 5..last] == s[at + n + 5..at + last];
      }
    }
  }

  /** The session's loop: five exact reads a request. A short read closes the
      session; what was complete before it has been queued. */
  method HandleRemotePack(stream: seq<byte>) returns (calls: seq<Call>)
    ensures calls == Calls(stream)
  {
    calls := [];
    var at := 0;
    assert stream[0..] == stream;
    hide CallComplete, FrontCall, CallEnd, NameEnd, Calls, HostOrder;
    while |stream| - at >= 2
      invariant at <= |stream| && Calls(stream) == calls + Calls(stream[at..])
      decreases |stream| - at
    {
      CallsStep(stream[at..]);
      CallAt(stream, at);
      var nameEnd := at + 2 + HostOrder(stream[at..at + 2]);
      if |stream| < nameEnd {
        return;
      }
      var name := stream[at + 2..nameEnd];
      if |stream| < nameEnd + 1 {
        return;
      }
      var kind := stream[nameEnd];
      if |stream| < nameEnd + 5 {
        return;
      }
      var end := nameEnd + 5 + HostOrder(stream[nameEnd + 1..nameEnd + 5]);
      if |stream| < end {
        return;
      }
      Regroup(calls, Call(name, kind, stream[nameEnd + 5..end]), Calls(stream[end..]));
      assert stream[at..][end - at..] == stream[end..];
      calls := calls + [Call(name, kind, stream[nameEnd + 5..end])];
      at := end;
    }
    CallsShort(stream[at..]);
  }

  lemma CallsShort(s: seq<byte>)
    requires |s| < 2
    ensures Calls(s) == []
  {
  }

  predicate Fits(c: Call) {
    |c.service| < 0x1_0000 && |c.data| < 0x1_0000_0000
  }

  lemma CallParts(c: Call, more: seq<byte>)
    ensures var s, n := CallLayout(c) + more, 2 + |c.service|;
            && |s| == n + 5 + |c.data| + |more|
            && s[..2] == NetworkOrder(|c.service|, 2) && s[n + 1..n + 5] == NetworkOrder(|c.data|, 4)
            && s[2..n] == c.service && s[n] == c.kind
            && s[n + 5..n + 5 + |c.data|] == c.data && s[n + 5 + |c.data|..] == more
  {
    hide NetworkOrder;
  }

  /** A stream that starts with the parts of a request. */
  lemma CallOf(s: seq<byte>, c: Call, more: seq<byte>)
    requires |s| >= 2 + |c.service| + 5 + |c.data|
    requires var n := 2 + |c.service|;
             && HostOrder(s[..2]) == |c.service| && HostOrder(s[n + 1..n + 5]) == |c.data|
             && s[2..n] == c.service && s[n] == c.kind
             && s[n + 5..n + 5 + |c.data|] == c.data && s[n + 5 + |c.data|..] == more
    ensures CallComplete(s) && FrontCall(s) == c && s[CallEnd(s)..] == more
  {
    hide HostOrder;
  }

  lemma Below(n: nat, d: nat)
    requires n < d
    ensures n % d == n
  {
  }

  lemma LengthReadsBack(n: nat, k: nat)
    requires n < Power(k)
    ensures HostOrder(NetworkOrder(n, k)) == n
  {
    hide *;
    OrderReadsBack(n, k);
    Below(n, Power(k));
  }

  lemma FittingLengths(c: Call)
    requires Fits(c)
    ensures HostOrder(NetworkOrder(|c.service|, 2)) == |c.service|
    ensures HostOrder(NetworkOrder(|c.data|, 4)) == |c.data|
  {
    hide NetworkOrder, HostOrder, Power;
    Powers();
    LengthReadsBack(|c.service|, 2);
    LengthReadsBack(|c.data|, 4);
  }

  /** A request whose lengths fit their fields is read back as itself. */
  lemma FittingReadsBack(c: Call, more: seq<byte>)
    requires Fits(c)
    ensures var s := CallLayout(c) + more; CallComplete(s) && FrontCall(s) == c && s[CallEnd(s)..] == more
  {
    hide *;
    FittingLengths(c);
    CallParts(c, more);
    CallOf(CallLayout(c) + more, c, more);
  }

  lemma ReadBackFits(c: Call, more: seq<byte>)
    requires var s := CallLayout(c) + more; CallComplete(s) && FrontCall(s) == c
    ensures Fits(c)
  {
    var s := CallLayout(c) + more;
    OrderReadsBack(|c.service|, 2);
    OrderReadsBack(|c.data|, 4);
    Powers();
    CallParts(c, more);
    hide NetworkOrder, HostOrder, Power;
    assert |c.service| == NameEnd(s) - 2 == |c.service| % 0x1_0000;
    assert |c.data| == CallEnd(s) - (NameEnd(s) + 5) == |c.data| % 0x1_0000_0000;
  }

  /** One request is read back, and exactly it is consumed, if and only if its lengths
      fit their fields: otherwise one of them is cut. */
  lemma CallReadsBack(c: Call, more: seq<byte>)
    ensures var s := CallLayout(c) + more;
            (CallComplete(s) && FrontCall(s) == c && s[CallEnd(s)..] == more) <==> Fits(c)
  {
    var s := CallLayout(c) + more;
    hide *;
    if Fits(c) {
      FittingReadsBack(c, more);
    } else if CallComplete(s) && FrontCall(s) == c {
      ReadBackFits(c, more);
    }
  }

  /** The session reads back any list of requests whose lengths fit their fields. */
  lemma {:induction false} CallsReadBack(calls: seq<Call>, more: seq<byte>)
    requires forall i :: 0 <= i < |calls| ==> Fits(calls[i])
    ensures Calls(CallLayouts(calls) + more) == calls + Calls(more)
  {
    if calls == [] {
      assert CallLayouts(calls) + more == more;
    } else {
      var rest := CallLayouts(calls[1..]) + more;
      assert CallLayouts(calls) + more == CallLayout(calls[0]) + rest;
      hide *;
      FittingReadsBack(calls[0], rest);
      CallsStep(CallLayout(calls[0]) + rest);
      CallsReadBack(calls[1..], more);
      ConsAppend(calls, Calls(more));
    }
  }
}
