/** Splitting a byte stream into length-prefixed packets. Four parsers of the system have this
    shape: the device's downlink framing and its nested Opus splitter, the server's uplink parser,
    and the smoke script. They differ in the header width and in which headers they refuse. */
module PacketScan {
  import opened Bytes

  /** What a parser makes of a complete header: a payload length, or a header it refuses. */
  datatype Verdict = Payload(n: nat) | Refused

  type HeaderRule = seq<byte> -> Verdict

  datatype Packet = Packet(header: seq<byte>, payload: seq<byte>)

  /** The complete packets of a stream, what is left over, and whether a refused header stopped it. */
  datatype Scanned = Scanned(packets: seq<Packet>, rest: seq<byte>, refused: bool)

  function Scan(width: nat, rule: HeaderRule, s: seq<byte>): (r: Scanned)
    requires width > 0
    ensures |r.rest| <= |s|
    decreases |s|
  {
    if |s| < width then Scanned([], s, false)
    else match rule(s[..width])
      case Refused => Scanned([], s, true)
      case Payload(n) =>
        if |s| < width + n then Scanned([], s, false)
        else
          var t := Scan(width, rule, s[width + n..]);
          Scanned([Packet(s[..width], s[width..width + n])] + t.packets, t.rest, t.refused)
  }

  function Bare(p: Packet): seq<byte> { p.header + p.payload }

  /** The bytes of a packet sequence on the wire. */
  function Wire(ps: seq<Packet>): (s: seq<byte>) {
    if ps == [] then [] else Bare(ps[0]) + Wire(ps[1..])
  }

  lemma {:induction false} WireConcat(a: seq<Packet>, b: seq<Packet>)
    ensures Wire(a + b) == Wire(a) + Wire(b)
  {
    if a == [] {
      assert a + b == b;
    } else {
      assert (a + b)[1..] == a[1..] + b;
      WireConcat(a[1..], b);
    }
  }

  function Payloads(ps: seq<Packet>): (s: seq<seq<byte>>)
    ensures |s| == |ps|
  {
    seq(|ps|, i requires 0 <= i < |ps| => ps[i].payload)
  }

  ghost predicate WellFormed(width: nat, rule: HeaderRule, ps: seq<Packet>) {
    forall i :: 0 <= i < |ps| ==> |ps[i].header| == width && rule(ps[i].header) == Payload(|ps[i].payload|)
  }

  lemma {:induction false} WireCons(p: Packet, ps: seq<Packet>)
    ensures Wire([p] + ps) == Bare(p) + Wire(ps)
  {
    assert ([p] + ps)[1..] == ps;
  }

  lemma {:induction false} OneInFront(width: nat, rule: HeaderRule, p: Packet, ps: seq<Packet>, rest: seq<byte>)
    ensures Wire([p] + ps) + rest == Bare(p) + (Wire(ps) + rest)
    ensures WellFormed(width, rule, [p]) && WellFormed(width, rule, ps) ==> WellFormed(width, rule, [p] + ps)
  {
    WireCons(p, ps);
  }

  /** The packet at the front of a stream that is not stuck. */
  function First(width: nat, rule: HeaderRule, s: seq<byte>): (p: Packet)
    requires !Stuck(width, rule, s)
  {
    Packet(s[..width], s[width..width + rule(s[..width]).n])
  }

  lemma {:induction false} FirstIsThere(width: nat, rule: HeaderRule, s: seq<byte>)
    requires width > 0 && !Stuck(width, rule, s)
    ensures var p, tail := First(width, rule, s), s[width + rule(s[..width]).n..];
      && WellFormed(width, rule, [p]) && s == Bare(p) + tail && |tail| < |s|
      && var t := Scan(width, rule, tail); Scan(width, rule, s) == Scanned([p] + t.packets, t.rest, t.refused)
  {
  }

  /** Scanning loses nothing, invents nothing and stops only where it is stuck. */
  lemma {:induction false} ScanIsLossless(width: nat, rule: HeaderRule, s: seq<byte>)
    requires width > 0
    ensures var r := Scan(width, rule, s);
            && Wire(r.packets) + r.rest == s
            && WellFormed(width, rule, r.packets)
            && Stuck(width, rule, r.rest)
            && r.refused == RefusedAt(width, rule, r.rest)
    decreases |s|
  {
    if Stuck(width, rule, s) {
      assert Wire([]) + s == s;
    } else {
      FirstIsThere(width, rule, s);
      var tail := s[width + rule(s[..width]).n..];
      var t := Scan(width, rule, tail);
      ScanIsLossless(width, rule, tail);
      OneInFront(width, rule, First(width, rule, s), t.packets, t.rest);
    }
  }

  lemma ScanOfOne(width: nat, rule: HeaderRule, p: Packet, tail: seq<byte>)
    requires width > 0 && |p.header| == width && rule(p.header) == Payload(|p.payload|)
    ensures var t := Scan(width, rule, tail);
            Scan(width, rule, Bare(p) + tail) == Scanned([p] + t.packets, t.rest, t.refused)
  {
    var s := Bare(p) + tail;
    assert s[..width] == p.header;
    assert s[width..width + |p.payload|] == p.payload;
    assert s[width + |p.payload|..] == tail;
  }

  /** Printing packets and scanning the result gives the packets back, whatever follows them. */
  lemma {:induction false} ScanOfWire(width: nat, rule: HeaderRule, ps: seq<Packet>, tail: seq<byte>)
    requires width > 0 && WellFormed(width, rule, ps)
    ensures var t := Scan(width, rule, tail);
            Scan(width, rule, Wire(ps) + tail) == Scanned(ps + t.packets, t.rest, t.refused)
  {
    var t := Scan(width, rule, tail);
    if ps == [] {
      assert Wire(ps) + tail == tail;
      assert ps + t.packets == t.packets;
    } else {
      var w := Wire(ps[1..]);
      var u := Scan(width, rule, w + tail);
      assert u == Scanned(ps[1..] + t.packets, t.rest, t.refused) by {
        ScanOfWire(width, rule, ps[1..], tail);
      }
      assert Scan(width, rule, Bare(ps[0]) + w + tail) == Scanned([ps[0]] + u.packets, u.rest, u.refused) by {
        ScanOfLonger(width, rule, ps[0], w, tail);
      }
      assert Wire(ps) == Bare(ps[0]) + w;
      assert [ps[0]] + (ps[1..] + t.packets) == ps + t.packets;
    }
  }

  lemma {:induction false} ScanOfLonger(width: nat, rule: HeaderRule, p: Packet, wire: seq<byte>, tail: seq<byte>)
    requires width > 0 && |p.header| == width && rule(p.header) == Payload(|p.payload|)
    ensures var u := Scan(width, rule, wire + tail);
            Scan(width, rule, Bare(p) + wire + tail) == Scanned([p] + u.packets, u.rest, u.refused)
  {
    assert Bare(p) + wire + tail == Bare(p) + (wire + tail);
    ScanOfOne(width, rule, p, wire + tail);
  }

  /** Scanning a stream in two pieces, carrying the leftover, is scanning it whole. */
  lemma ScanIsCutInvariant(width: nat, rule: HeaderRule, a: seq<byte>, b: seq<byte>)
    requires width > 0
    ensures var p := Scan(width, rule, a);
            var q := Scan(width, rule, p.rest + b);
            Scan(width, rule, a + b) == Scanned(p.packets + q.packets, q.rest, q.refused)
  {
    var p := Scan(width, rule, a);
    ScanIsLossless(width, rule, a);
    assert a + b == Wire(p.packets) + (p.rest + b);
    ScanOfWire(width, rule, p.packets, p.rest + b);
  }

  /** A receiver that scans after every read until a header is refused. */
  function Feed(width: nat, rule: HeaderRule, st: Scanned, cuts: seq<seq<byte>>): (r: Scanned)
    requires width > 0
    decreases |cuts|
  {
    if cuts == [] || st.refused then st
    else
      var q := Scan(width, rule, st.rest + cuts[0]);
      Feed(width, rule, Scanned(st.packets + q.packets, q.rest, q.refused), cuts[1..])
  }

  lemma FeedOne(width: nat, rule: HeaderRule, st: Scanned, cuts: seq<seq<byte>>, k: nat)
    requires width > 0 && k < |cuts| && !st.refused
    ensures var q := Scan(width, rule, st.rest + cuts[k]);
            Feed(width, rule, st, cuts[k..])
              == Feed(width, rule, Scanned(st.packets + q.packets, q.rest, q.refused), cuts[k + 1..])
  {
    assert cuts[k..][1..] == cuts[k + 1..];
  }

  const FRESH := Scanned([], [], false)

  /** Feeding from the scan of what came so far, one read on. */
  lemma {:induction false} FeedMore(width: nat, rule: HeaderRule, a: seq<byte>, cuts: seq<seq<byte>>)
    requires width > 0 && cuts != [] && !Scan(width, rule, a).refused
    ensures Feed(width, rule, Scan(width, rule, a), cuts) == Feed(width, rule, Scan(width, rule, a + cuts[0]), cuts[1..])
  {
    var st := Scan(width, rule, a);
    var q := Scan(width, rule, st.rest + cuts[0]);
    var more := Scanned(st.packets + q.packets, q.rest, q.refused);
    assert more == Scan(width, rule, a + cuts[0]) by {
      ScanIsCutInvariant(width, rule, a, cuts[0]);
    }
    assert Feed(width, rule, st, cuts) == Feed(width, rule, more, cuts[1..]);
  }

  lemma {:induction false} FeedFrom(width: nat, rule: HeaderRule, a: seq<byte>, cuts: seq<seq<byte>>)
    requires width > 0
    ensures var whole := Scan(width, rule, a + Flatten(cuts));
            var fed := Feed(width, rule, Scan(width, rule, a), cuts);
            && fed.packets == whole.packets
            && fed.refused == whole.refused
            && (!whole.refused ==> fed.rest == whole.rest)
    decreases |cuts|
  {
    if cuts == [] {
      assert a + Flatten(cuts) == a;
    } else if Scan(width, rule, a).refused {
      RefusedIsFinal(width, rule, a, Flatten(cuts));
    } else {
      FeedMore(width, rule, a, cuts);
      FeedFrom(width, rule, a + cuts[0], cuts[1..]);
      assert a + Flatten(cuts) == a + cuts[0] + Flatten(cuts[1..]);
    }
  }

  lemma RefusedIsFinal(width: nat, rule: HeaderRule, a: seq<byte>, more: seq<byte>)
    requires width > 0 && Scan(width, rule, a).refused
    ensures var st := Scan(width, rule, a);
            Scan(width, rule, a + more) == Scanned(st.packets, st.rest + more, true)
  {
    var st := Scan(width, rule, a);
    ScanIsLossless(width, rule, a);
    ScanIsCutInvariant(width, rule, a, more);
    assert (st.rest + more)[..width] == st.rest[..width];
    assert st.packets + [] == st.packets;
  }

  /** Main result on cutting: however a stream is cut into reads, the receiver ends with the same
      packets in the same order, and (unless it stopped on a refused header) the same leftover. */
  lemma FeedIsScanOfWhole(width: nat, rule: HeaderRule, cuts: seq<seq<byte>>)
    requires width > 0
    ensures var whole := Scan(width, rule, Flatten(cuts));
            var fed := Feed(width, rule, FRESH, cuts);
            && fed.packets == whole.packets
            && fed.refused == whole.refused
            && (!whole.refused ==> fed.rest == whole.rest)
  {
    FeedFrom(width, rule, [], cuts);
    assert [] + Flatten(cuts) == Flatten(cuts);
  }

  /** No packet can be taken from the front of `s`: too few bytes, or a header that is refused. */
  predicate Stuck(width: nat, rule: HeaderRule, s: seq<byte>) {
    |s| < width || rule(s[..width]) == Refused || |s| < width + rule(s[..width]).n
  }

  predicate RefusedAt(width: nat, rule: HeaderRule, s: seq<byte>) {
    |s| >= width && rule(s[..width]) == Refused
  }

  /** What a parser's loop has to know: the packets `done` are well formed and are the first
      `offset` bytes. Then it has scanned everything if it is stuck, and misses some if it is not. */
  lemma LoopMeetsScan(width: nat, rule: HeaderRule, s: seq<byte>, done: seq<Packet>, offset: nat)
    requires width > 0 && offset <= |s|
    requires WellFormed(width, rule, done) && Wire(done) == s[..offset]
    ensures var r := Scan(width, rule, s);
            if Stuck(width, rule, s[offset..]) then
              r == Scanned(done, s[offset..], RefusedAt(width, rule, s[offset..]))
            else
              |r.packets| > |done| && r.packets[..|done|] == done
  {
    assert s == s[..offset] + s[offset..];
    ScanOfWire(width, rule, done, s[offset..]);
    assert done + [] == done;
  }

  /** What one look at a position finds. */
  datatype Look = Incomplete | Hopeless(header: seq<byte>) | Complete(packet: Packet)

  ghost predicate Sees(width: nat, rule: HeaderRule, s: seq<byte>, offset: nat, look: Look) {
    && offset <= |s|
    && match look
       case Incomplete => Stuck(width, rule, s[offset..]) && !RefusedAt(width, rule, s[offset..])
       case Hopeless(h) => RefusedAt(width, rule, s[offset..]) && |h| == width && h == s[offset..][..width]
       case Complete(p) =>
         && |p.header| == width && rule(p.header) == Payload(|p.payload|)
         && offset + |Bare(p)| <= |s| && s[offset..offset + |Bare(p)|] == Bare(p)
         && !Stuck(width, rule, s[offset..])
  }

  /** A look at the front of the rest is a look at the whole. */
  lemma SeesThrough(width: nat, rule: HeaderRule, s: seq<byte>, offset: nat, look: Look)
    requires offset <= |s| && Sees(width, rule, s[offset..], 0, look)
    ensures Sees(width, rule, s, offset, look)
  {
    assert s[offset..][0..] == s[offset..];
    if look.Complete? {
      assert s[offset..][0..|Bare(look.packet)|] == s[offset..offset + |Bare(look.packet)|];
    }
  }

  /** One more packet. */
  lemma LoopTakes(width: nat, rule: HeaderRule, s: seq<byte>, done: seq<Packet>, offset: nat, p: Packet)
    requires WellFormed(width, rule, done) && |p.header| == width && rule(p.header) == Payload(|p.payload|)
    requires offset + |Bare(p)| <= |s| && Wire(done) == s[..offset]
    requires s[offset..offset + |Bare(p)|] == Bare(p)
    ensures Wire(done + [p]) == s[..offset + |Bare(p)|]
    ensures WellFormed(width, rule, done + [p])
  {
    WireConcat(done, [p]);
    assert Wire([p]) == Bare(p) + Wire([]) == Bare(p);
  }

  /** A parser that hands over packets until `budget` of them are accepted: what it hands over, and
      whether it succeeds. */
  ghost predicate HandsOver(width: nat, rule: HeaderRule, s: seq<byte>, budget: nat, ok: bool, done: seq<Packet>)
    requires width > 0
  {
    var r := Scan(width, rule, s);
    && (ok <==> |r.packets| <= budget && !r.refused)
    && done == r.packets[..Min(budget, |r.packets|)]
    && (ok ==> done == r.packets)
  }

  lemma LoopHandsOver(width: nat, rule: HeaderRule, s: seq<byte>, budget: nat, ok: bool, done: seq<Packet>, offset: nat)
    requires width > 0 && offset <= |s| && |done| <= budget
    requires WellFormed(width, rule, done) && Wire(done) == s[..offset]
    requires if ok then Stuck(width, rule, s[offset..]) && !RefusedAt(width, rule, s[offset..])
             else RefusedAt(width, rule, s[offset..]) || (|done| == budget && !Stuck(width, rule, s[offset..]))
    ensures HandsOver(width, rule, s, budget, ok, done)
    ensures ok ==> Scan(width, rule, s) == Scanned(done, s[offset..], false)
  {
    LoopMeetsScan(width, rule, s, done, offset);
  }
}
