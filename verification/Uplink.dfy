/** The uplink of a turn: PCM of any chunking is regrouped into fixed frames, encoded, numbered and
    printed as framed messages. */
module Uplink {
  import opened Bytes
  import opened PacketScan
  import opened Framing

  // ---------------------------------------------------------------- fixed slices

  /** The full slices of `n` bytes, from the front. */
  function Slices(n: nat, s: seq<byte>): (r: seq<seq<byte>>)
    requires n > 0
    decreases |s|
  {
    if |s| < n then [] else [s[..n]] + Slices(n, s[n..])
  }

  /** What is left after them. */
  function Rest(n: nat, s: seq<byte>): (r: seq<byte>)
    requires n > 0
    ensures |r| < n
    decreases |s|
  {
    if |s| < n then s else Rest(n, s[n..])
  }

  function Zeros(n: nat): seq<byte> { seq(n, _ => 0) }

  /** A partial slice is padded with zeros; nothing is added to an exact multiple. */
  function Padded(n: nat, rest: seq<byte>): (r: seq<seq<byte>>)
    requires |rest| <= n
    ensures |r| == if rest == [] then 0 else 1
    ensures rest != [] ==> |r[0]| == n && rest <= r[0] && forall i :: |rest| <= i < n ==> r[0][i] == 0
  {
    if rest == [] then [] else [rest + Zeros(n - |rest|)]
  }

  function PaddedSlices(n: nat, s: seq<byte>): seq<seq<byte>>
    requires n > 0
  {
    Slices(n, s) + Padded(n, Rest(n, s))
  }

  ghost predicate AllOfLength(n: nat, pieces: seq<seq<byte>>) {
    forall i :: 0 <= i < |pieces| ==> |pieces[i]| == n
  }

  /** Slices and rest are the only way to cut a sequence so. */
  lemma {:induction false} SlicesAreUnique(n: nat, s: seq<byte>, pieces: seq<seq<byte>>, rest: seq<byte>)
    requires n > 0 && AllOfLength(n, pieces) && |rest| < n
    requires s == Flatten(pieces) + rest
    ensures pieces == Slices(n, s) && rest == Rest(n, s)
    decreases |pieces|
  {
    if pieces == [] {
      assert s == rest;
    } else {
      assert s == pieces[0] + (Flatten(pieces[1..]) + rest);
      assert s[..n] == pieces[0] && s[n..] == Flatten(pieces[1..]) + rest;
      SlicesAreUnique(n, s[n..], pieces[1..], rest);
    }
  }

  lemma {:induction false} SlicesRebuild(n: nat, s: seq<byte>)
    requires n > 0
    ensures AllOfLength(n, Slices(n, s))
    ensures Flatten(Slices(n, s)) + Rest(n, s) == s
    decreases |s|
  {
    if |s| >= n {
      SlicesRebuild(n, s[n..]);
      assert Slices(n, s)[1..] == Slices(n, s[n..]);
      assert s == s[..n] + s[n..];
    }
  }

  /** Slicing in two goes, carrying the rest, is slicing the whole. */
  lemma {:induction false} SlicesAreCutInvariant(n: nat, a: seq<byte>, b: seq<byte>)
    requires n > 0
    ensures Slices(n, a + b) == Slices(n, a) + Slices(n, Rest(n, a) + b)
    ensures Rest(n, a + b) == Rest(n, Rest(n, a) + b)
    decreases |a|
  {
    if |a| >= n {
      assert (a + b)[..n] == a[..n] && (a + b)[n..] == a[n..] + b;
      SlicesAreCutInvariant(n, a[n..], b);
    }
  }

  // ---------------------------------------------------------------- messages

  /** What the Opus encoder, which has state, makes of the last frame of a history. */
  datatype EncodeResult = Encoded(data: seq<byte>) | EncoderFailed

  type Encoder = seq<seq<byte>> -> EncodeResult

  /** An encoding the sender accepts: its length fits the 16-bit field and is not zero. */
  predicate Usable(r: EncodeResult) {
    r.Encoded? && 0 < |r.data| < TWO_TO_THE_16
  }

  /** The first `k` frames give usable encodings, fed in this order behind what was `fed` before. */
  predicate SendableUpTo(encoder: Encoder, fed: seq<seq<byte>>, frames: seq<seq<byte>>, k: nat)
    requires k <= |frames|
  {
    k == 0 || (SendableUpTo(encoder, fed, frames, k - 1) && Usable(encoder(fed + frames[..k])))
  }

  predicate Sendable(encoder: Encoder, fed: seq<seq<byte>>, frames: seq<seq<byte>>) {
    SendableUpTo(encoder, fed, frames, |frames|)
  }

  lemma {:induction false} SendableShares(encoder: Encoder, fed: seq<seq<byte>>, a: seq<seq<byte>>, b: seq<seq<byte>>, k: nat)
    requires k <= |a| && k <= |b| && a[..k] == b[..k]
    ensures SendableUpTo(encoder, fed, a, k) == SendableUpTo(encoder, fed, b, k)
  {
    if k > 0 {
      assert a[..k - 1] == a[..k][..k - 1] == b[..k - 1];
      SendableShares(encoder, fed, a, b, k - 1);
    }
  }

  lemma {:induction false} SendableLess(encoder: Encoder, fed: seq<seq<byte>>, frames: seq<seq<byte>>, j: nat, k: nat)
    requires j <= k <= |frames| && SendableUpTo(encoder, fed, frames, k)
    ensures SendableUpTo(encoder, fed, frames, j)
  {
    if j < k {
      SendableLess(encoder, fed, frames, j, k - 1);
    }
  }

  lemma {:induction false} SendableBehind(encoder: Encoder, fed: seq<seq<byte>>, a: seq<seq<byte>>, b: seq<seq<byte>>, k: nat)
    requires k <= |b|
    ensures SendableUpTo(encoder, fed, a + b, |a| + k) <==>
              Sendable(encoder, fed, a) && SendableUpTo(encoder, fed + a, b, k)
  {
    if k == 0 {
      assert (a + b)[..|a|] == a[..|a|];
      SendableShares(encoder, fed, a + b, a, |a|);
    } else {
      SendableBehind(encoder, fed, a, b, k - 1);
      assert (a + b)[..|a| + k] == a + b[..k] && fed + (a + b[..k]) == fed + a + b[..k];
    }
  }

  lemma {:induction false} SendableConcat(encoder: Encoder, fed: seq<seq<byte>>, a: seq<seq<byte>>, b: seq<seq<byte>>)
    ensures Sendable(encoder, fed, a + b) <==> Sendable(encoder, fed, a) && Sendable(encoder, fed + a, b)
  {
    SendableBehind(encoder, fed, a, b, |b|);
  }

  lemma {:induction false} SendableStart(encoder: Encoder, fed: seq<seq<byte>>, a: seq<seq<byte>>, b: seq<seq<byte>>)
    requires a <= b
    ensures Sendable(encoder, fed, b) ==> Sendable(encoder, fed, a)
  {
    assert a[..|a|] == b[..|a|];
    SendableShares(encoder, fed, a, b, |a|);
    if Sendable(encoder, fed, b) {
      SendableLess(encoder, fed, b, |a|, |b|);
    }
  }

  /** The frame at which sending stops: the socket has no room for it, or its encoding is unusable. */
  ghost predicate StopsAt(encoder: Encoder, fed: seq<seq<byte>>, frames: seq<seq<byte>>, budget: nat, j: nat) {
    && j < |frames| && j <= budget && SendableUpTo(encoder, fed, frames, j)
    && (j == budget || !Usable(encoder(fed + frames[..j + 1])))
  }

  lemma {:induction false} StopIsFinal(encoder: Encoder, fed: seq<seq<byte>>, frames: seq<seq<byte>>, budget: nat, j: nat)
    requires StopsAt(encoder, fed, frames, budget, j)
    ensures !(|frames| <= budget && Sendable(encoder, fed, frames))
  {
    if Sendable(encoder, fed, frames) {
      SendableLess(encoder, fed, frames, j + 1, |frames|);
    }
  }

  /** The payload of a frame: the encoded bytes behind their own length. */
  function Payload(data: seq<byte>): seq<byte>
    requires |data| < TWO_TO_THE_16
  {
    WriteBe16(|data|) + data
  }

  /** One binary message. */
  function Message(sequence: uint32, data: seq<byte>): seq<byte>
    requires |data| < TWO_TO_THE_16
  {
    WriteBe32(sequence) + WriteBe32(2 + |data|) + WriteBe16(|data|) + data
  }

  lemma {:induction false} MessageIsFrame(sequence: uint32, data: seq<byte>)
    requires |data| < TWO_TO_THE_16
    ensures Message(sequence, data) == Bare(Frame(sequence, Payload(data)))
  {
  }

  /** Its payload is one packet of the kind the splitter takes, the encoder's output. */
  lemma {:induction false} PayloadIsOnePacket(data: seq<byte>)
    requires 0 < |data| < TWO_TO_THE_16
    ensures OpusScan(Payload(data)) == Scanned([Packet(WriteBe16(|data|), data)], [], false)
  {
    var p := Packet(WriteBe16(|data|), data);
    assert WellFormed(OPUS_HEADER, OpusRule, [p]);
    assert Wire([p]) == Bare(p) + Wire([]) == Payload(data) && Wire([p]) + [] == Wire([p]);
    ScanOfWire(OPUS_HEADER, OpusRule, [p], []);
    assert [p] + [] == [p];
  }

  /** Message i is what the encoder made of input i, numbered i, in a conversation whose earlier
      turns had fed it `past`. */
  ghost predicate SentAt(encoder: Encoder, past: seq<seq<byte>>, inputs: seq<seq<byte>>, message: seq<byte>, i: nat)
    requires i < |inputs|
  {
    var r := encoder(past + inputs[..i + 1]);
    Usable(r) && message == Message(i % TWO_TO_THE_32, r.data)
  }

  /** The first `k` messages are what the encoder made of the first `k` inputs. */
  ghost predicate SentUpTo(encoder: Encoder, past: seq<seq<byte>>, inputs: seq<seq<byte>>, messages: seq<seq<byte>>, k: nat)
    requires k <= |inputs| && k <= |messages|
  {
    k == 0 || (SentUpTo(encoder, past, inputs, messages, k - 1) && SentAt(encoder, past, inputs, messages[k - 1], k - 1))
  }

  /** The messages of a turn that went well. */
  ghost predicate SentWell(encoder: Encoder, past: seq<seq<byte>>, inputs: seq<seq<byte>>, messages: seq<seq<byte>>) {
    |messages| == |inputs| && SentUpTo(encoder, past, inputs, messages, |inputs|)
  }

  lemma {:induction false} SentUpToMeans(encoder: Encoder, past: seq<seq<byte>>, inputs: seq<seq<byte>>,
                                         messages: seq<seq<byte>>, k: nat)
    requires k <= |inputs| && k <= |messages| && SentUpTo(encoder, past, inputs, messages, k)
    ensures forall i :: 0 <= i < k ==> SentAt(encoder, past, inputs, messages[i], i)
  {
    if k > 0 {
      SentUpToMeans(encoder, past, inputs, messages, k - 1);
    }
  }

  lemma {:induction false} SentWellMeans(encoder: Encoder, past: seq<seq<byte>>, inputs: seq<seq<byte>>,
                                         messages: seq<seq<byte>>)
    requires SentWell(encoder, past, inputs, messages)
    ensures |messages| == |inputs|
    ensures forall i :: 0 <= i < |inputs| ==> SentAt(encoder, past, inputs, messages[i], i)
  {
    SentUpToMeans(encoder, past, inputs, messages, |inputs|);
  }

  /** Inputs and messages that come later change nothing about the earlier ones. */
  lemma {:induction false} SentStays(encoder: Encoder, past: seq<seq<byte>>, inputs: seq<seq<byte>>, messages: seq<seq<byte>>,
                                     moreInputs: seq<seq<byte>>, moreMessages: seq<seq<byte>>, k: nat)
    requires k <= |inputs| && k <= |messages| && inputs <= moreInputs && messages <= moreMessages
    ensures SentUpTo(encoder, past, inputs, messages, k) == SentUpTo(encoder, past, moreInputs, moreMessages, k)
  {
    if k > 0 {
      assert inputs[..k] == moreInputs[..k];
      SentStays(encoder, past, inputs, messages, moreInputs, moreMessages, k - 1);
    }
  }

  lemma {:induction false} NextNumber(n: nat)
    ensures (n % TWO_TO_THE_32 + 1) % TWO_TO_THE_32 == (n + 1) % TWO_TO_THE_32
  {
  }

  lemma {:induction false} SentWellSnoc(encoder: Encoder, past: seq<seq<byte>>, inputs: seq<seq<byte>>,
                                        messages: seq<seq<byte>>, frame: seq<byte>)
    requires SentWell(encoder, past, inputs, messages)
    requires Usable(encoder(past + (inputs + [frame])))
    ensures SentWell(encoder, past, inputs + [frame],
                     messages + [Message(|inputs| % TWO_TO_THE_32, encoder(past + (inputs + [frame])).data)])
  {
    var more := inputs + [frame];
    var sent := messages + [Message(|inputs| % TWO_TO_THE_32, encoder(past + more).data)];
    SentStays(encoder, past, inputs, messages, more, sent, |inputs|);
    assert more[..|more|] == more;
  }

  /** The sender's half of `cloud_conversation_t`. `past` and `inputs` are
      the encoder's memory, earlier turns and this one; `messages` is what the socket accepted. */
  class UplinkTurn {
    const encoder: Encoder
    const pcmFrame: array<byte>
    var pcmFrameLen: nat
    var sequence: uint32
    var turnStarted: bool
    var past: seq<seq<byte>>
    var inputs: seq<seq<byte>>
    ghost var messages: seq<seq<byte>>

    ghost predicate Valid()
      reads this
    {
      pcmFrame.Length > 0 && pcmFrameLen <= pcmFrame.Length
    }

    /** The PCM bytes that wait for a full frame. */
    ghost function Waiting(): seq<byte>
      reads this, pcmFrame
      requires Valid()
    {
      pcmFrame[..pcmFrameLen]
    }

    /** No send of this turn has failed so far. */
    ghost predicate Healthy()
      reads this
    {
      SentWell(encoder, past, inputs, messages) && sequence == |inputs| % TWO_TO_THE_32
    }

    constructor (encoder: Encoder, frameSize: nat)
      requires frameSize > 0
      ensures Valid() && fresh(pcmFrame) && pcmFrame.Length == frameSize && this.encoder == encoder
      ensures !turnStarted && Waiting() == []
    {
      this.encoder := encoder;
      pcmFrame := new byte[frameSize];
      pcmFrameLen, sequence, turnStarted := 0, 0, false;
      past, inputs, messages := [], [], [];
    }

    /** `acknowledged` is whether the server's turn event came in time. */
    method StartTurn(acknowledged: bool) returns (err: EspErr)
      requires Valid()
      modifies this
      ensures Valid() && Waiting() == [] && inputs == [] && messages == [] && Healthy()
      ensures past == old(past) + old(inputs)
      ensures turnStarted == acknowledged && (err == OK <==> acknowledged)
    {
      sequence, pcmFrameLen := 0, 0;
      past, inputs, messages := past + inputs, [], [];
      turnStarted := acknowledged;
      err := if acknowledged then OK else Timeout;
    }

    /** The encoder takes the full frame. */
    method Encode() returns (output: EncodeResult)
      requires Valid() && pcmFrameLen == pcmFrame.Length
      modifies this`inputs
      ensures inputs == old(inputs) + [pcmFrame[..]] && output == encoder(past + inputs)
    {
      inputs := inputs + [pcmFrame[..]];
      output := encoder(past + inputs);
    }

    /** The message buffer: sequence, payload length, packet length, packet. */
    method Assemble(data: seq<byte>) returns (message: seq<byte>)
      requires |data| < TWO_TO_THE_16
      ensures message == Message(sequence, data)
    {
      var payloadLen := 2 + |data|;
      message := WriteBe32(sequence) + WriteBe32(payloadLen) + WriteBe16(|data|) + data;
    }

    /** Only a message the socket takes whole moves the number on and empties the frame. */
    method Transmit(data: seq<byte>, accepted: bool) returns (err: EspErr)
      requires |data| < TWO_TO_THE_16
      modifies this`messages, this`sequence, this`pcmFrameLen
      ensures err == if accepted then OK else Fail
      ensures if accepted then
          messages == old(messages) + [Message(old(sequence), data)] && pcmFrameLen == 0
          && sequence == (old(sequence) + 1) % TWO_TO_THE_32
        else messages == old(messages) && sequence == old(sequence) && pcmFrameLen == old(pcmFrameLen)
    {
      var message := Assemble(data);
      if !accepted {
        return Fail;
      }
      messages := messages + [message];
      sequence := (sequence + 1) % TWO_TO_THE_32;
      pcmFrameLen := 0;
      return OK;
    }

    /** Encodes the full frame and sends it; after a failure the frame stays where it is. */
    method SendCurrentFrame(accepted: bool) returns (err: EspErr)
      requires Valid() && pcmFrameLen == pcmFrame.Length
      modifies this
      ensures Valid() && turnStarted == old(turnStarted) && past == old(past)
      ensures inputs == old(inputs) + [pcmFrame[..]]
      ensures err == OK <==> accepted && Usable(encoder(past + inputs))
      ensures err == OK ==> pcmFrameLen == 0
      ensures err == OK ==> Usable(encoder(past + inputs))
                            && messages == old(messages) + [Message(old(sequence), encoder(past + inputs).data)]
      ensures err != OK ==> err == Fail && pcmFrameLen == old(pcmFrameLen) && messages == old(messages)
      ensures old(Healthy()) ==> if err == OK then Healthy() else SentSome()
    {
      ghost var before, sent, healthy := inputs, messages, Healthy();
      ghost var frame := pcmFrame[..];
      var output := Encode();
      if healthy {
        SentStays(encoder, past, before, sent, inputs, sent, |before|);
      }
      if output.EncoderFailed? || |output.data| == 0 || |output.data| > 65535 {
        return Fail;
      }
      err := Transmit(output.data, accepted);
      if err == OK && healthy {
        NextNumber(|before|);
        SentWellSnoc(encoder, past, before, sent, frame);
      }
    }

    method Fill(piece: seq<byte>)
      requires Valid() && pcmFrameLen + |piece| <= pcmFrame.Length
      modifies this`pcmFrameLen, pcmFrame
      ensures Valid() && Waiting() == old(Waiting()) + piece
    {
      CopyInto(pcmFrame, pcmFrameLen, piece);
      pcmFrameLen := pcmFrameLen + |piece|;
      assert pcmFrame[..pcmFrameLen] == old(pcmFrame[..pcmFrameLen]) + piece;
    }

    /** One turn of the regrouping loop: a piece that fits, and the send if the frame is now full. */
    method FillAndSend(piece: seq<byte>, accepted: bool) returns (err: EspErr)
      requires Valid() && pcmFrameLen + |piece| <= pcmFrame.Length
      modifies this, pcmFrame
      ensures Valid() && turnStarted == old(turnStarted) && past == old(past)
      ensures var w := old(Waiting()) + piece;
        if |w| < pcmFrame.Length then
          err == OK && inputs == old(inputs) && Waiting() == w && messages == old(messages)
        else
          && inputs == old(inputs) + [w]
          && (err == OK <==> accepted && Usable(encoder(past + inputs)))
          && Waiting() == (if err == OK then [] else w)
          && (if err == OK then |messages| == |old(messages)| + 1 else messages == old(messages))
      ensures old(Healthy()) ==> if err == OK then Healthy() else SentSome()
    {
      Fill(piece);
      if pcmFrameLen == pcmFrame.Length {
        assert pcmFrame[..] == old(Waiting()) + piece;
        err := SendCurrentFrame(accepted);
      } else {
        err := OK;
      }
    }

    /** One turn of the loop: as much of the PCM as fits, and the send if the frame is now full. It is
        then the next of the `frames` the call has to send, behind the `sent` first ones. */
    method TakeSome(pcm: seq<byte>, offset: nat, accepted: bool, ghost before: seq<seq<byte>>,
                    ghost frames: seq<seq<byte>>, ghost sent: nat)
      returns (err: EspErr, next: nat, full: bool)
      requires Valid() && offset < |pcm| && sent <= |frames| && inputs == before + frames[..sent]
      requires frames[sent..] == Slices(pcmFrame.Length, Waiting() + pcm[offset..])
      modifies this, pcmFrame
      ensures Valid() && turnStarted == old(turnStarted) && past == old(past)
      ensures offset <= next <= |pcm| && (next == offset ==> full && old(pcmFrameLen) == pcmFrame.Length)
      ensures full ==>
                && sent < |frames| && inputs == before + frames[..sent + 1]
                && (err == OK <==> accepted && Usable(encoder(past + before + frames[..sent + 1])))
                && Waiting() == (if err == OK then [] else frames[sent])
                && (if err == OK then |messages| == |old(messages)| + 1 else messages == old(messages))
      ensures !full ==> err == OK && inputs == old(inputs) && messages == old(messages) && pcmFrameLen < pcmFrame.Length
      ensures err == OK ==>
                && frames[if full then sent + 1 else sent..] == Slices(pcmFrame.Length, Waiting() + pcm[next..])
                && Rest(pcmFrame.Length, old(Waiting()) + pcm[offset..]) == Rest(pcmFrame.Length, Waiting() + pcm[next..])
      ensures old(Healthy()) ==> if err == OK then Healthy() else SentSome()
    {
      var capacity := pcmFrame.Length - pcmFrameLen;
      var amount := if |pcm| - offset < capacity then |pcm| - offset else capacity;
      next, full := offset + amount, amount == capacity;
      ghost var w := Waiting() + pcm[offset..next];
      assert Waiting() + pcm[offset..] == w + pcm[next..];
      err := FillAndSend(pcm[offset..next], accepted);
      if full {
        OneSlice(pcmFrame.Length, w, pcm[next..]);
        NextFrame(past, before, frames, sent, w, Slices(pcmFrame.Length, [] + pcm[next..]));
      }
    }

    /** Every message is what the encoder made of its input; one more frame may be encoded and not sent. */
    ghost predicate SentSome()
      reads this
    {
      |messages| <= |inputs| <= |messages| + 1 && SentUpTo(encoder, past, inputs, messages, |messages|)
    }

    /** What a failing call leaves: the frames before the one it stopped at were sent, that one was fed
        to the encoder and still waits, and the PCM behind it is dropped. */
    ghost predicate Stopped(before: seq<seq<byte>>, sent: nat, frames: seq<seq<byte>>, budget: nat, j: nat)
      requires Valid()
      reads this, pcmFrame
    {
      && StopsAt(encoder, past + before, frames, budget, j)
      && inputs == before + frames[..j + 1] && |messages| == sent + j && Waiting() == frames[j]
    }

    /** Fills the frame from `pcm` and sends it whenever it is full; `budget` is how many messages
        the socket accepts during the call, `sent` how many it got. */
    method SendPcm(pcm: seq<byte>, budget: nat) returns (err: EspErr, ghost sent: nat)
      requires Valid()
      modifies this, pcmFrame
      ensures Valid() && turnStarted == old(turnStarted) && past == old(past)
      ensures pcm == [] || !turnStarted ==>
                err == InvalidArg && inputs == old(inputs) && messages == old(messages) && Waiting() == old(Waiting())
      ensures var frames := Slices(pcmFrame.Length, old(Waiting()) + pcm);
        err == OK <==> pcm != [] && turnStarted
                       && |frames| <= budget && Sendable(encoder, old(past) + old(inputs), frames)
      ensures err == OK ==>
                && inputs == old(inputs) + Slices(pcmFrame.Length, old(Waiting()) + pcm)
                && Waiting() == Rest(pcmFrame.Length, old(Waiting()) + pcm)
                && (old(Healthy()) ==> Healthy())
      ensures err != OK && pcm != [] && turnStarted ==>
                && Stopped(old(inputs), |old(messages)|, Slices(pcmFrame.Length, old(Waiting()) + pcm), budget, sent)
                && (old(Healthy()) ==> SentSome())
    {
      sent := 0;
      if |pcm| == 0 || !turnStarted {
        return InvalidArg, 0;
      }
      ghost var n, before, fed := pcmFrame.Length, inputs, past + inputs;
      ghost var frames, rest := Slices(n, Waiting() + pcm), Rest(n, Waiting() + pcm);
      var offset: nat, left := 0, budget;
      while offset < |pcm|
        invariant Valid() && turnStarted == old(turnStarted) && past == old(past) && n == pcmFrame.Length
        invariant offset <= |pcm| && (offset > 0 ==> pcmFrameLen < n)
        invariant sent <= |frames| && frames[sent..] == Slices(n, Waiting() + pcm[offset..])
        invariant rest == Rest(n, Waiting() + pcm[offset..])
        invariant inputs == before + frames[..sent] && SendableUpTo(encoder, fed, frames, sent)
        invariant sent + left == budget && |messages| == |old(messages)| + sent
        invariant old(Healthy()) ==> Healthy()
        decreases |pcm| - offset, pcmFrameLen
      {
        var full;
        err, offset, full := TakeSome(pcm, offset, left > 0, before, frames, sent);
        if full {
          if err != OK {
            StopIsFinal(encoder, fed, frames, budget, sent);
            return;
          }
          sent := sent + 1;
          left := left - 1;
        }
      }
      assert Waiting() + pcm[offset..] == Waiting() && frames[..sent] == frames;
      err := OK;
    }

    /** Pads what waits with zeros and sends it; `accepted` is whether the socket takes that frame,
        `answered` whether the turn then ended with the server's answer. */
    method FinishTurn(accepted: bool, answered: EspErr) returns (err: EspErr)
      requires Valid()
      modifies this, pcmFrame
      ensures Valid() && past == old(past) && turnStarted == old(turnStarted)
      ensures !turnStarted ==> err == InvalidArg && inputs == old(inputs) && messages == old(messages)
      ensures turnStarted ==>
                && inputs == old(inputs) + Padded(pcmFrame.Length, old(Waiting()))
                && (err == OK <==> answered == OK && (old(Waiting()) == [] || (accepted && Usable(encoder(past + inputs)))))
      ensures turnStarted && old(Healthy()) ==>
                if old(Waiting()) == [] || (accepted && Usable(encoder(past + inputs))) then Healthy() && Waiting() == []
                else SentSome()
    {
      if !turnStarted {
        return InvalidArg;
      }
      if pcmFrameLen > 0 {
        ghost var waiting := Waiting();
        var padding := seq(pcmFrame.Length - pcmFrameLen, _ => 0);
        Fill(padding);
        assert pcmFrame[..] == waiting + Zeros(pcmFrame.Length - |waiting|);
        err := SendCurrentFrame(accepted);
        if err != OK {
          return;
        }
      }
      return answered;
    }

    /** Every chunk is non-empty and fills no more frames than the socket accepts during its call. */
    static ghost predicate RoomForAll(n: nat, chunks: seq<seq<byte>>, budgets: seq<nat>, k: nat)
      requires n > 0 && |budgets| == |chunks| && k <= |chunks|
    {
      forall i :: 0 <= i < k ==>
        chunks[i] != [] && |Slices(n, Rest(n, Flatten(chunks[..i])) + chunks[i])| <= budgets[i]
    }

    /** The next chunk of a turn that went well so far; `pcm` is what was sent of it before. */
    method SendChunk(ghost pcm: seq<byte>, chunk: seq<byte>, budget: nat) returns (err: EspErr)
      requires Valid() && Healthy() && turnStarted
      requires inputs == Slices(pcmFrame.Length, pcm) && Waiting() == Rest(pcmFrame.Length, pcm)
      modifies this, pcmFrame
      ensures Valid() && past == old(past) && turnStarted
      ensures var n := pcmFrame.Length;
        && Slices(n, pcm + chunk) == Slices(n, pcm) + Slices(n, Rest(n, pcm) + chunk)
        && (err == OK ==> inputs == Slices(n, pcm + chunk) && Waiting() == Rest(n, pcm + chunk) && Healthy())
        && (err != OK ==> SentSome() && inputs <= Slices(n, pcm + chunk))
        && (err == OK <==> chunk != [] && |Slices(n, Rest(n, pcm) + chunk)| <= budget
                           && Sendable(encoder, past + Slices(n, pcm), Slices(n, Rest(n, pcm) + chunk)))
    {
      ghost var before, frames := inputs, Slices(pcmFrame.Length, Waiting() + chunk);
      SlicesAreCutInvariant(pcmFrame.Length, pcm, chunk);
      ghost var sent;
      err, sent := SendPcm(chunk, budget);
      if err != OK && chunk != [] {
        assert before + frames[..sent + 1] <= before + frames;
      }
    }

    /** All chunks of a turn, one call each. */
    method SendChunks(chunks: seq<seq<byte>>, budgets: seq<nat>) returns (err: EspErr)
      requires Valid() && Healthy() && turnStarted && inputs == [] && Waiting() == [] && |budgets| == |chunks|
      modifies this, pcmFrame
      ensures Valid() && past == old(past) && turnStarted
      ensures var n, pcm := pcmFrame.Length, Flatten(chunks);
        && (err == OK <==> RoomForAll(n, chunks, budgets, |chunks|) && Sendable(encoder, past, Slices(n, pcm)))
        && (err == OK ==> inputs == Slices(n, pcm) && Waiting() == Rest(n, pcm) && Healthy())
        && (err != OK ==> SentSome() && inputs <= Slices(n, pcm))
    {
      ghost var n := pcmFrame.Length;
      for k := 0 to |chunks|
        invariant Valid() && Healthy() && turnStarted && past == old(past) && n == pcmFrame.Length
        invariant inputs == Slices(n, Flatten(chunks[..k])) && Waiting() == Rest(n, Flatten(chunks[..k]))
        invariant RoomForAll(n, chunks, budgets, k) && Sendable(encoder, past, inputs)
      {
        ghost var pcm := Flatten(chunks[..k]);
        ChunkExtends(n, chunks, k);
        SendableConcat(encoder, past, Slices(n, pcm), Slices(n, Rest(n, pcm) + chunks[k]));
        SendableStart(encoder, past, Slices(n, Flatten(chunks[..k + 1])), Slices(n, Flatten(chunks)));
        err := SendChunk(pcm, chunks[k], budgets[k]);
        if err != OK {
          return;
        }
      }
      assert chunks[..|chunks|] == chunks;
      return OK;
    }

    /** A whole turn, as the capture callback drives it: every chunk goes to `SendPcm`. If all is
        accepted, the encoder got the fixed slices of the concatenation, padded once at the end, and
        the messages are its output numbered from 0, however the PCM was chunked. If not, what was sent
        are the first of these messages. */
    method SendTurn(chunks: seq<seq<byte>>, budgets: seq<nat>, lastAccepted: bool, answered: EspErr)
      returns (err: EspErr)
      requires Valid() && |budgets| == |chunks|
      modifies this, pcmFrame
      ensures Valid() && past == old(past) + old(inputs)
      ensures var n, pcm := pcmFrame.Length, Flatten(chunks);
        err == OK <==>
          && RoomForAll(n, chunks, budgets, |chunks|) && (Rest(n, pcm) == [] || lastAccepted) && answered == OK
          && Sendable(encoder, past, PaddedSlices(n, pcm))
      ensures err == OK ==>
                inputs == PaddedSlices(pcmFrame.Length, Flatten(chunks)) && SentWell(encoder, past, inputs, messages)
      ensures SentSome() && inputs <= PaddedSlices(pcmFrame.Length, Flatten(chunks))
    {
      ghost var n, pcm := pcmFrame.Length, Flatten(chunks);
      err := StartTurn(true);
      err := SendChunks(chunks, budgets);
      LastFrame(encoder, past, Slices(n, pcm), Padded(n, Rest(n, pcm)));
      if err != OK {
        return;
      }
      err := FinishTurn(lastAccepted, answered);
    }
  }

  /** A full frame is the next slice. */
  lemma {:induction false} OneSlice(n: nat, w: seq<byte>, tail: seq<byte>)
    requires n > 0 && |w| == n
    ensures Slices(n, w + tail) == [w] + Slices(n, [] + tail) && Rest(n, w + tail) == Rest(n, [] + tail)
  {
    assert (w + tail)[..n] == w && (w + tail)[n..] == tail == [] + tail;
  }

  lemma {:induction false} NextFrame(past: seq<seq<byte>>, before: seq<seq<byte>>, frames: seq<seq<byte>>, k: nat,
                                     w: seq<byte>, more: seq<seq<byte>>)
    requires k <= |frames| && frames[k..] == [w] + more
    ensures k < |frames| && frames[k] == w && frames[k + 1..] == more
    ensures before + frames[..k] + [w] == before + frames[..k + 1]
    ensures past + (before + frames[..k + 1]) == past + before + frames[..k + 1]
  {
    assert frames[k] == frames[k..][0] && frames[k + 1..] == frames[k..][1..];
  }

  lemma {:induction false} LastFrame(encoder: Encoder, fed: seq<seq<byte>>, before: seq<seq<byte>>, last: seq<seq<byte>>)
    requires |last| <= 1
    ensures Sendable(encoder, fed, before + last) <==>
              Sendable(encoder, fed, before) && (last == [] || Usable(encoder(fed + (before + last))))
  {
    SendableConcat(encoder, fed, before, last);
    if last != [] {
      assert last[..1] == last && fed + before + last == fed + (before + last);
      assert SendableUpTo(encoder, fed + before, last, 0);
    }
  }

  /** What one more chunk adds to the slices of a turn. */
  lemma {:induction false} ChunkExtends(n: nat, chunks: seq<seq<byte>>, k: nat)
    requires n > 0 && k < |chunks|
    ensures var more := Flatten(chunks[..k + 1]);
      more == Flatten(chunks[..k]) + chunks[k] && Slices(n, more) <= Slices(n, Flatten(chunks))
  {
    var more := Flatten(chunks[..k + 1]);
    assert chunks[..k + 1] == chunks[..k] + [chunks[k]] && chunks == chunks[..k + 1] + chunks[k + 1..];
    FlattenSnoc(chunks[..k], chunks[k]);
    FlattenConcat(chunks[..k + 1], chunks[k + 1..]);
    SlicesAreCutInvariant(n, more, Flatten(chunks[k + 1..]));
  }
}
