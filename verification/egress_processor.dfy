/** The audio-worklet processor that turns float samples into signed 16-bit
    PCM (packages/gum2novasonic). Samples are modelled as exact reals, so the
    clamping and scaling are exact; posting a buffer on the worklet port is
    appending it to the list of posted messages. */
module EgressProcessor {

  const Int16Max: int := 0x7FFF
  const Int16Min: int := -0x8000

  /** An element of an Int16Array. */
  newtype Int16 = x: int | -0x8000 <= x <= 0x7FFF

  /** One sample: below -1 saturates low, above 1 saturates high; otherwise a
      negative sample is scaled by 32768 and a non-negative one by 32767, and
      the product is rounded down (towards minus infinity, not towards zero). */
  function Quantize(sample: real): (q: int)
    ensures Int16Min <= q <= Int16Max
    ensures q < 0 <==> sample < 0.0
  {
    if sample < -1.0 then Int16Min
    else if sample > 1.0 then Int16Max
    else if sample < 0.0 then (sample * (-Int16Min) as real).Floor
    else (sample * Int16Max as real).Floor
  }

  /** Full scale in both directions and silence are exact. */
  lemma QuantizeEndpoints()
    ensures Quantize(1.0) == 32767
    ensures Quantize(-1.0) == -32768
    ensures Quantize(0.0) == 0
  {
  }

  /** Anything outside [-1, 1] saturates. */
  lemma QuantizeSaturates(sample: real)
    ensures sample <= -1.0 ==> Quantize(sample) == Int16Min
    ensures sample >= 1.0 ==> Quantize(sample) == Int16Max
  {
  }

  /** Rounding is downward: a tiny negative sample becomes -1, where
      truncation towards zero would give 0. */
  lemma QuantizeRoundsDown()
    ensures Quantize(-1.0 / 65536.0) == -1
    ensures Quantize(1.0 / 65536.0) == 0
  {
  }

  /** An in-range sample is never more than one step above its code: the code
      is the largest integer not exceeding the scaled sample. */
  lemma QuantizeIsFloor(sample: real)
    requires -1.0 <= sample <= 1.0
    ensures sample < 0.0 ==>
              Quantize(sample) as real <= sample * 32768.0 < Quantize(sample) as real + 1.0
    ensures sample >= 0.0 ==>
              Quantize(sample) as real <= sample * 32767.0 < Quantize(sample) as real + 1.0
  {
  }

  lemma FloorMonotone(x: real, y: real)
    requires x <= y
    ensures x.Floor <= y.Floor
  {
    assert x.Floor as real <= x <= y < y.Floor as real + 1.0;
  }

  /** A louder sample never yields a smaller code. */
  lemma QuantizeMonotone(a: real, b: real)
    requires a <= b
    ensures Quantize(a) <= Quantize(b)
  {
    if -1.0 <= a && b <= 1.0 {
      if b < 0.0 {
        FloorMonotone(a * 32768.0, b * 32768.0);
      } else if 0.0 <= a {
        FloorMonotone(a * 32767.0, b * 32767.0);
      }
    }
  }

  /** The buffer a channel becomes. */
  function Pcm16(channel: seq<real>): (pcm: seq<Int16>)
    ensures |pcm| == |channel|
  {
    seq(|channel|, i requires 0 <= i < |channel| => Quantize(channel[i]) as Int16)
  }

  /** The conversion loop: one code per sample, into a fresh Int16Array. */
  method EncodePcm16(channel: seq<real>) returns (pcm: seq<Int16>)
    ensures |pcm| == |channel|
    ensures forall i :: 0 <= i < |channel| ==> pcm[i] as int == Quantize(channel[i])
  {
    var buffer := new Int16[|channel|];
    var i := 0;
    while i < |channel|
      invariant 0 <= i <= |channel|
      invariant forall k :: 0 <= k < i ==> buffer[k] as int == Quantize(channel[k])
    {
      var sample := channel[i];
      if sample < -1.0 {
        buffer[i] := Int16Min as Int16;
      } else if sample > 1.0 {
        buffer[i] := Int16Max as Int16;
      } else if sample < 0.0 {
        buffer[i] := (sample * (-Int16Min) as real).Floor as Int16;
      } else {
        buffer[i] := (sample * Int16Max as real).Floor as Int16;
      }
      i := i + 1;
    }
    pcm := buffer[..];
  }

  /** The loop computes the specification buffer. */
  lemma EncodeMatchesPcm16(channel: seq<real>, pcm: seq<Int16>)
    requires |pcm| == |channel|
    requires forall i :: 0 <= i < |channel| ==> pcm[i] as int == Quantize(channel[i])
    ensures pcm == Pcm16(channel)
  {
  }

  class NovaSonicEgressAudioProcessor {
    /** Whether the worklet port exists. */
    const hasPort: bool
    /** The buffers posted on the port, oldest first. */
    var posted: seq<seq<Int16>>

    constructor (hasPort: bool)
      ensures this.hasPort == hasPort && posted == []
    {
      this.hasPort := hasPort;
      posted := [];
    }

    /** `process(inputs)`: channel 0 of input 0, if there is one, is encoded
        and posted; every other channel and input is ignored; the processor
        always asks to be kept alive. */
    method Process(inputs: seq<seq<seq<real>>>) returns (keepAlive: bool)
      modifies this`posted
      ensures keepAlive
      ensures !hasPort || inputs == [] || inputs[0] == [] ==> posted == old(posted)
      ensures hasPort && inputs != [] && inputs[0] != [] ==>
                posted == old(posted) + [Pcm16(inputs[0][0])]
    {
      if !hasPort {
        return true;
      }
      if inputs == [] || inputs[0] == [] {
        return true;
      }
      var pcm := EncodePcm16(inputs[0][0]);
      EncodeMatchesPcm16(inputs[0][0], pcm);
      posted := posted + [pcm];
      keepAlive := true;
    }
  }
}
