/** The volume setting and the sample bookkeeping of sound.cpp.

    Sounds are streamed to the I2S bus in buffers of at most 256 16-bit
    samples. The samples' values (a sine with an attack and release
    envelope) are not part of this model: each write is recorded by the
    number of samples it carries, in `writes`. */
module Sound {

  const U32Modulus: int := 0x1_0000_0000

  type Byte = b: int | 0 <= b < 256
  type U32 = x: int | 0 <= x < U32Modulus

  /** Samples per I2S write. */
  const Chunk: nat := 256

  /** Below this the codec is inaudible, so the volume is set to 0. */
  const InaudibleVolume: int := 30

  // ---- volume ----

  /** `setVolume`'s rule: inaudible settings mute, the rest is capped at 100. */
  function ClampVolume(v: Byte): (r: Byte)
    ensures r == 0 || InaudibleVolume < r <= 100
    ensures v <= InaudibleVolume ==> r == 0
    ensures InaudibleVolume < v <= 100 ==> r == v
    ensures v > 100 ==> r == 100
  {
    if v <= InaudibleVolume then 0 else if v > 100 then 100 else v
  }

  /** Setting again a volume that `setVolume` stored changes nothing. The
      volumes left unchanged are exactly 0 and 31..100, so the initial
      AUDIO_VOLUME, which is stored unclamped, changes on
      `setVolume(getVolume())` when it lies outside them. */
  lemma ClampVolumeIdempotent(v: Byte)
    ensures ClampVolume(ClampVolume(v)) == ClampVolume(v)
    ensures ClampVolume(v) == v <==> v == 0 || InaudibleVolume < v <= 100
  {
  }

  // ---- sample counts ----

  /** The sample count of `ms` milliseconds at `rate` samples a second,
      computed in 64 bits: `(uint64_t)AUDIO_SAMPLE_RATE * ms / 1000`. */
  function ExactSamples(rate: U32, ms: U32): nat
  {
    rate * ms / 1000
  }

  /** The count stored in a `uint32_t`: exact when it fits, otherwise
      truncated to its low 32 bits. */
  function Samples(rate: U32, ms: U32): (total: U32)
    ensures ExactSamples(rate, ms) < U32Modulus ==> total == ExactSamples(rate, ms)
    ensures total == ExactSamples(rate, ms) % U32Modulus
  {
    LowWord(ExactSamples(rate, ms));
    ExactSamples(rate, ms) % U32Modulus
  }

  lemma LowWord(x: nat)
    ensures 0 <= x % U32Modulus < U32Modulus
    ensures x < U32Modulus ==> x % U32Modulus == x
  {
  }

  /** The sizes of the writes that stream `total` samples: full buffers,
      then what is left. */
  function Pieces(total: nat): (ps: seq<nat>)
    ensures forall i :: 0 <= i < |ps| ==> 0 < ps[i] <= Chunk
    ensures forall i :: 0 <= i < |ps| - 1 ==> ps[i] == Chunk
    ensures |ps| == (total + Chunk - 1) / Chunk
    decreases total
  {
    if total == 0 then []
    else
      var n := if total > Chunk then Chunk else total;
      [n] + Pieces(total - n)
  }

  /** One turn of the streaming loops: the next buffer is a full one, or
      what is left. */
  lemma PiecesStep(total: nat)
    requires total > 0
    ensures var n := if total > Chunk then Chunk else total;
      Pieces(total) == [n] + Pieces(total - n)
  {
  }

  function Sum(ps: seq<nat>): nat
    decreases |ps|
  {
    if ps == [] then 0 else ps[0] + Sum(ps[1..])
  }

  /** The writes carry exactly the samples asked for. */
  lemma {:induction false} PiecesSum(total: nat)
    ensures Sum(Pieces(total)) == total
    decreases total
  {
    if total > 0 {
      var n := if total > Chunk then Chunk else total;
      PiecesSum(total - n);
      assert Pieces(total)[1..] == Pieces(total - n);
    }
  }

  lemma {:induction false} SumAppend(a: seq<nat>, b: seq<nat>)
    ensures Sum(a + b) == Sum(a) + Sum(b)
    decreases |a|
  {
    if a == [] {
      assert a + b == b;
    } else {
      assert (a + b)[0] == a[0] && (a + b)[1..] == a[1..] + b;
      SumAppend(a[1..], b);
    }
  }

  lemma AppendAssoc(a: seq<nat>, b: seq<nat>, c: seq<nat>, d: seq<nat>)
    ensures ((a + b) + c) + d == a + ((b + c) + d)
  {
  }

  // ---- the sounds ----

  /** The writes of one `playToneHz` of `ms` milliseconds, when audible. */
  function Tone(rate: U32, ms: U32): seq<nat>
  {
    Pieces(Samples(rate, ms))
  }

  /** The writes of one `writeSilenceMs`. */
  function Silence(rate: U32, ms: U32): seq<nat>
  {
    Pieces(Samples(rate, ms))
  }

  /** A bell hit: the main tone, then its harmonic, of the same length. */
  function Bell(rate: U32, ms: U32): seq<nat>
  {
    Tone(rate, ms) + Tone(rate, ms)
  }

  function PowerOnWrites(rate: U32): seq<nat>
  {
    Bell(rate, 80) + Silence(rate, 40) + Bell(rate, 120)
  }

  function PowerOffWrites(rate: U32): seq<nat>
  {
    Bell(rate, 80) + Silence(rate, 40) + Bell(rate, 140)
  }

  function StartWorkoutWrites(rate: U32): seq<nat>
  {
    Tone(rate, 50) + Silence(rate, 25) + Tone(rate, 80)
  }

  function StopWorkoutWrites(rate: U32): seq<nat>
  {
    Tone(rate, 60) + Silence(rate, 30) + Tone(rate, 140)
  }

  /** How long the four sounds are, in samples: every tone and pause is
      streamed in full and nothing else is written. */
  lemma SoundLengths(rate: U32)
    ensures Sum(PowerOnWrites(rate)) == 2 * Samples(rate, 80) + Samples(rate, 40) + 2 * Samples(rate, 120)
    ensures Sum(PowerOffWrites(rate)) == 2 * Samples(rate, 80) + Samples(rate, 40) + 2 * Samples(rate, 140)
    ensures Sum(StartWorkoutWrites(rate)) == Samples(rate, 50) + Samples(rate, 25) + Samples(rate, 80)
    ensures Sum(StopWorkoutWrites(rate)) == Samples(rate, 60) + Samples(rate, 30) + Samples(rate, 140)
  {
    forall ms: U32 ensures Sum(Tone(rate, ms)) == Samples(rate, ms) && Sum(Bell(rate, ms)) == 2 * Samples(rate, ms) {
      PiecesSum(Samples(rate, ms));
      SumAppend(Tone(rate, ms), Tone(rate, ms));
    }
    SumAppend(Bell(rate, 80) + Silence(rate, 40), Bell(rate, 120));
    SumAppend(Bell(rate, 80), Silence(rate, 40));
    SumAppend(Bell(rate, 80) + Silence(rate, 40), Bell(rate, 140));
    SumAppend(Tone(rate, 50) + Silence(rate, 25), Tone(rate, 80));
    SumAppend(Tone(rate, 50), Silence(rate, 25));
    SumAppend(Tone(rate, 60) + Silence(rate, 30), Tone(rate, 140));
    SumAppend(Tone(rate, 60), Silence(rate, 30));
  }

  /** The statics of sound.cpp, with AUDIO_SAMPLE_RATE and AUDIO_VOLUME,
      which config.h does not define, as parameters. `paHigh` is the level
      last written to the amplifier's enable pin. */
  class Audio {
    var volume: Byte
    var paHigh: bool
    var writes: seq<nat>
    const sampleRate: U32

    /** The static initialiser stores AUDIO_VOLUME as it is, unclamped. */
    constructor (audioVolume: Byte, rate: U32)
      ensures volume == audioVolume && sampleRate == rate
      ensures !paHigh && writes == []
    {
      volume := audioVolume;
      sampleRate := rate;
      paHigh := false;
      writes := [];
    }

    method GetVolume() returns (v: Byte)
      ensures v == volume
    {
      v := volume;
    }

    /** `setVolume`: the amplifier is switched off exactly when muted. */
    method SetVolume(v: Byte)
      modifies this`volume, this`paHigh
      ensures volume == ClampVolume(v)
      ensures paHigh <==> volume != 0
    {
      volume := if v <= InaudibleVolume then 0 else if v > 100 then 100 else v;
      if volume == 0 {
        paHigh := false;
      } else {
        paHigh := true;
      }
    }

    /** `writeSilenceMs(ms)`: streams a zeroed buffer. */
    method WriteSilenceMs(ms: U32)
      modifies this`writes
      ensures writes == old(writes) + Silence(sampleRate, ms)
    {
      var total := Samples(sampleRate, ms);
      var remaining: nat := total;
      while remaining > 0
        invariant writes + Pieces(remaining) == old(writes) + Pieces(total)
        decreases remaining
      {
        var n := if remaining > Chunk then Chunk else remaining;
        PiecesStep(remaining);
        ghost var rest := Pieces(remaining - n);
        assert (writes + [n]) + rest == writes + ([n] + rest);
        writes := writes + [n];
        remaining := remaining - n;
      }
      assert writes + [] == writes;
    }

    /** `playToneHz(freq, ms, ...)`: nothing when muted or when the tone
        is shorter than one sample, otherwise every sample of it. */
    method PlayToneHz(freq: int, ms: U32)
      modifies this`writes
      ensures writes == old(writes) + if volume == 0 then [] else Tone(sampleRate, ms)
    {
      if volume == 0 {
        return;
      }
      var total := Samples(sampleRate, ms);
      if total == 0 {
        return;
      }
      var written := 0;
      while written < total
        invariant 0 <= written <= total
        invariant writes + Pieces(total - written) == old(writes) + Pieces(total)
        decreases total - written
      {
        var n := if total - written > Chunk then Chunk else total - written;
        PiecesStep(total - written);
        ghost var rest := Pieces(total - written - n);
        assert (writes + [n]) + rest == writes + ([n] + rest);
        writes := writes + [n];
        written := written + n;
      }
      assert writes + [] == writes;
    }

    /** `bellHit(f, ms, ...)`: the tone and its harmonic at twice the
        frequency. */
    method BellHit(f: int, ms: U32)
      modifies this`writes
      ensures writes == old(writes) + if volume == 0 then [] else Bell(sampleRate, ms)
    {
      if volume == 0 {
        return;
      }
      ghost var start := writes;
      PlayToneHz(f, ms);
      PlayToneHz(f * 2, ms);
      ghost var tone := Tone(sampleRate, ms);
      assert (start + tone) + tone == start + (tone + tone);
    }

    method PlayPowerOnSound()
      modifies this`writes
      ensures writes == old(writes) + if volume == 0 then [] else PowerOnWrites(sampleRate)
    {
      if volume == 0 {
        return;
      }
      ghost var start := writes;
      BellHit(659, 80);
      WriteSilenceMs(40);
      BellHit(784, 120);
      AppendAssoc(start, Bell(sampleRate, 80), Silence(sampleRate, 40), Bell(sampleRate, 120));
    }

    method PlayPowerOffSound()
      modifies this`writes
      ensures writes == old(writes) + if volume == 0 then [] else PowerOffWrites(sampleRate)
    {
      if volume == 0 {
        return;
      }
      ghost var start := writes;
      BellHit(659, 80);
      WriteSilenceMs(40);
      BellHit(523, 140);
      AppendAssoc(start, Bell(sampleRate, 80), Silence(sampleRate, 40), Bell(sampleRate, 140));
    }

    method PlayStartWorkoutSound()
      modifies this`writes
      ensures writes == old(writes) + if volume == 0 then [] else StartWorkoutWrites(sampleRate)
    {
      if volume == 0 {
        return;
      }
      ghost var start := writes;
      PlayToneHz(880, 50);
      WriteSilenceMs(25);
      PlayToneHz(1175, 80);
      AppendAssoc(start, Tone(sampleRate, 50), Silence(sampleRate, 25), Tone(sampleRate, 80));
    }

    method PlayStopWorkoutSound()
      modifies this`writes
      ensures writes == old(writes) + if volume == 0 then [] else StopWorkoutWrites(sampleRate)
    {
      if volume == 0 {
        return;
      }
      ghost var start := writes;
      PlayToneHz(1175, 60);
      WriteSilenceMs(30);
      PlayToneHz(880, 140);
      AppendAssoc(start, Tone(sampleRate, 60), Silence(sampleRate, 30), Tone(sampleRate, 140));
    }
  }

}
