/**
 * The live interview studio (components/LiveInterviewStudio.tsx): the
 * byte/string loops around base64, the de-interleaving of PCM samples, and
 * the session state that `onmessage`, `onended`, `stopSession` and
 * `startSession` update. Every callback is one atomic step; the playback
 * clock `now` is an input.
 */
module LiveInterviewStudio {
  import opened Wrappers
  import opened Text

  const OutputSampleRate := 24000
  const OutputChannels := 1
  const StartErrorText := "Failed to access microphone or connect."
  const SessionErrorText := "Session connection error."

  // ---------------------------------------------------------------------------
  // decode / encode: binary strings and bytes
  // ---------------------------------------------------------------------------

  /** An element of a `Uint8Array`. */
  newtype byte = x: int | 0 <= x < 256

  /** A string whose every character is a byte (what `atob` returns and `btoa` accepts). */
  predicate IsBinaryString(s: string)
  {
    forall i :: 0 <= i < |s| ==> (s[i] as int) < 256
  }

  /**
   * Storing `charCodeAt(i)` into a `Uint8Array` keeps the code modulo 256:
   * one byte per character, a byte-sized character stored unchanged.
   */
  function BinaryToBytes(s: string): (r: seq<byte>)
    ensures |r| == |s|
    ensures forall i :: 0 <= i < |s| && (s[i] as int) < 256 ==> r[i] as int == s[i] as int
  {
    seq(|s|, i requires 0 <= i < |s| => ((s[i] as int) % 256) as byte)
  }

  /** `String.fromCharCode(b)` of each byte, in order. */
  function BytesToBinary(b: seq<byte>): (s: string)
    ensures IsBinaryString(s)
  {
    seq(|b|, i requires 0 <= i < |b| => (b[i] as int) as char)
  }

  /** Encoding bytes and decoding the result gives the bytes back. */
  lemma BytesRoundTrip(b: seq<byte>)
    ensures BinaryToBytes(BytesToBinary(b)) == b
  {
  }

  /** Decoding a binary string and encoding the result gives the string back. */
  lemma BinaryRoundTrip(s: string)
    requires IsBinaryString(s)
    ensures BytesToBinary(BinaryToBytes(s)) == s
  {
  }

  /** `decode`'s loop, after `atob`: one byte per character. */
  method Decode(binary: string) returns (bytes: array<byte>)
    ensures fresh(bytes)
    ensures bytes[..] == BinaryToBytes(binary)
  {
    bytes := new byte[|binary|];
    for i := 0 to |binary|
      invariant forall j :: 0 <= j < i ==> bytes[j] == ((binary[j] as int) % 256) as byte
    {
      bytes[i] := ((binary[i] as int) % 256) as byte;
    }
  }

  /** `encode`'s loop, before `btoa`: the string grows by one character per byte. */
  method Encode(bytes: array<byte>) returns (binary: string)
    ensures binary == BytesToBinary(bytes[..])
  {
    binary := "";
    for i := 0 to bytes.Length
      invariant binary == BytesToBinary(bytes[..i])
    {
      assert bytes[..i + 1] == bytes[..i] + [bytes[i]];
      binary := binary + [(bytes[i] as int) as char];
    }
    assert bytes[..bytes.Length] == bytes[..];
  }

  // ---------------------------------------------------------------------------
  // decodeAudioData: de-interleaving
  // ---------------------------------------------------------------------------

  /** The samples of an `Int16Array` viewing `byteLength` bytes, or None: an odd length throws. */
  function SampleCount(byteLength: nat): (n: Option<nat>)
    ensures n.Some? <==> byteLength % 2 == 0
    ensures n.Some? ==> 2 * n.value == byteLength
  {
    if byteLength % 2 == 0 then Some(byteLength / 2) else None
  }

  /** Frame `i` of channel `c` lies inside the samples. */
  lemma FrameIndexInRange(i: nat, c: nat, channels: nat, len: nat)
    requires channels > 0 && c < channels && i < len / channels
    ensures i * channels + c < len
  {
    var f := len / channels;
    assert f * channels <= len;
    assert i + 1 <= f;
    assert (i + 1) * channels <= f * channels;
  }

  /** Channel `c` of interleaved samples: frame `i` is sample `i * channels + c`. */
  function Channel(samples: seq<int>, channels: nat, c: nat): (r: seq<int>)
    requires channels > 0 && c < channels
    ensures |r| == |samples| / channels
  {
    seq(|samples| / channels, i requires 0 <= i < |samples| / channels =>
      FrameIndexInRange(i, c, channels, |samples|);
      samples[i * channels + c])
  }

  /**
   * `decodeAudioData`'s loops: one array of `len / numChannels` frames per
   * channel, filled from the interleaved samples. The scaling by 1/32768 is
   * not modelled: the values stay 16-bit integers.
   */
  method DecodeAudioData(samples: seq<int>, numChannels: nat) returns (channels: seq<seq<int>>)
    requires numChannels > 0
    ensures |channels| == numChannels
    ensures forall c :: 0 <= c < numChannels ==> channels[c] == Channel(samples, numChannels, c)
  {
    var frameCount := |samples| / numChannels;
    channels := [];
    for channel := 0 to numChannels
      invariant |channels| == channel
      invariant forall c :: 0 <= c < channel ==> channels[c] == Channel(samples, numChannels, c)
    {
      var channelData := new int[frameCount];
      ghost var spec := Channel(samples, numChannels, channel);
      for i := 0 to frameCount
        invariant channelData[..i] == spec[..i]
      {
        FrameIndexInRange(i, channel, numChannels, |samples|);
        channelData[i] := samples[i * numChannels + channel];
        assert channelData[..i + 1] == channelData[..i] + [channelData[i]];
        assert spec[..i + 1] == spec[..i] + [spec[i]];
      }
      assert channelData[..] == channelData[..frameCount];
      channels := channels + [channelData[..]];
    }
  }

  /** Every frame of every channel reads its own sample, inside the buffer. */
  lemma ChannelsPartitionSamples(samples: seq<int>, channels: nat, c: nat, i: nat)
    requires channels > 0 && c < channels && i < |samples| / channels
    ensures i * channels + c < |samples|
    ensures Channel(samples, channels, c)[i] == samples[i * channels + c]
  {
    FrameIndexInRange(i, c, channels, |samples|);
  }

  // ---------------------------------------------------------------------------
  // Playback scheduling
  // ---------------------------------------------------------------------------

  /** Where a chunk arriving at `now` starts: `Math.max(nextStart, now)`. */
  function ChunkStart(nextStart: real, now: real): (start: real)
    ensures start >= now && start >= nextStart
    ensures start == nextStart || start == now
  {
    if nextStart >= now then nextStart else now
  }

  /** An audio chunk as the schedule sees it: when it arrived and how long it plays. */
  datatype Chunk = Chunk(arrival: real, duration: real)

  predicate NonNegativeDurations(chunks: seq<Chunk>)
  {
    forall k :: 0 <= k < |chunks| ==> chunks[k].duration >= 0.0
  }

  /** The start times a run of chunks receives, from the counter value `next`. */
  function Starts(next: real, chunks: seq<Chunk>): (r: seq<real>)
    ensures |r| == |chunks|
    decreases |chunks|
  {
    if chunks == [] then []
    else
      var s := ChunkStart(next, chunks[0].arrival);
      [s] + Starts(s + chunks[0].duration, chunks[1..])
  }

  /**
   * The counter after a run of chunks: where the last chunk of the run, as
   * `Starts` places it, ends.
   */
  function NextAfter(next: real, chunks: seq<Chunk>): (r: real)
    ensures chunks == [] ==> r == next
    ensures chunks != [] ==> r == Starts(next, chunks)[|chunks| - 1] + chunks[|chunks| - 1].duration
    decreases |chunks|
  {
    if chunks == [] then next
    else
      var s := ChunkStart(next, chunks[0].arrival);
      assert Starts(next, chunks) == [s] + Starts(s + chunks[0].duration, chunks[1..]);
      NextAfter(s + chunks[0].duration, chunks[1..])
  }

  /** No chunk starts before it arrives. */
  lemma {:induction false} StartsAfterArrival(next: real, chunks: seq<Chunk>, k: nat)
    requires k < |chunks|
    ensures Starts(next, chunks)[k] >= chunks[k].arrival
    decreases k
  {
    if k > 0 {
      var s := ChunkStart(next, chunks[0].arrival);
      StartsAfterArrival(s + chunks[0].duration, chunks[1..], k - 1);
      assert Starts(next, chunks)[k] == Starts(s + chunks[0].duration, chunks[1..])[k - 1];
    }
  }

  /**
   * Each chunk starts no earlier than the previous one ends (no overlap,
   * arrival order kept), and exactly when it ends if the chunk comes while
   * the previous one is still queued (no gap).
   */
  lemma {:induction false} ConsecutiveStarts(next: real, chunks: seq<Chunk>, k: nat)
    requires k + 1 < |chunks|
    ensures Starts(next, chunks)[k] + chunks[k].duration <= Starts(next, chunks)[k + 1]
    ensures Starts(next, chunks)[k] + chunks[k].duration >= chunks[k + 1].arrival ==>
              Starts(next, chunks)[k + 1] == Starts(next, chunks)[k] + chunks[k].duration
    decreases k
  {
    var s := ChunkStart(next, chunks[0].arrival);
    var rest := Starts(s + chunks[0].duration, chunks[1..]);
    assert Starts(next, chunks) == [s] + rest;
    if k > 0 {
      ConsecutiveStarts(s + chunks[0].duration, chunks[1..], k - 1);
    }
  }

  /** With non-negative durations the counter never goes back. */
  lemma {:induction false} NextNeverDecreases(next: real, chunks: seq<Chunk>)
    requires NonNegativeDurations(chunks)
    ensures NextAfter(next, chunks) >= next
    decreases |chunks|
  {
    if chunks != [] {
      var n := ChunkStart(next, chunks[0].arrival) + chunks[0].duration;
      assert NonNegativeDurations(chunks[1..]) by {
        forall k | 0 <= k < |chunks[1..]| ensures chunks[1..][k].duration >= 0.0 {
          assert chunks[1..][k] == chunks[k + 1];
        }
      }
      NextNeverDecreases(n, chunks[1..]);
    }
  }

  /** Chunks of 1.0 s and 0.5 s arriving 0.1 s apart: the second starts when the first ends. */
  lemma BackToBackChunks(next: real, arrival: real)
    ensures Starts(next, [Chunk(arrival, 1.0), Chunk(arrival + 0.1, 0.5)])[1] ==
            Starts(next, [Chunk(arrival, 1.0), Chunk(arrival + 0.1, 0.5)])[0] + 1.0
  {
    ConsecutiveStarts(next, [Chunk(arrival, 1.0), Chunk(arrival + 0.1, 0.5)], 0);
  }

  /** The origin of a new output context's clock. */
  const SessionClockOrigin := 0.0

  // ---------------------------------------------------------------------------
  // Transcript
  // ---------------------------------------------------------------------------

  datatype Transcription = Transcription(text: Option<string>)

  /** `prev + " " + text`. */
  function AppendFragment(transcript: string, fragment: Transcription): (r: string)
    ensures transcript <= r
    ensures r[|transcript|..] == " " + Show(fragment.text)
  {
    transcript + " " + Show(fragment.text)
  }

  /**
   * The transcript after a run of fragments: the fragment that arrives last
   * is appended last.
   */
  function TranscriptAfter(transcript: string, fragments: seq<Transcription>): (r: string)
    ensures fragments == [] ==> r == transcript
    ensures fragments != [] ==>
      r == AppendFragment(TranscriptAfter(transcript, fragments[..|fragments| - 1]), fragments[|fragments| - 1])
    decreases |fragments|
  {
    if fragments == [] then transcript
    else
      var t := AppendFragment(transcript, fragments[0]);
      var n := |fragments|;
      assert n > 1 ==> fragments[..n - 1][1..] == fragments[1..][..n - 2];
      assert fragments[..n - 1] == [] ==> fragments[1..] == [];
      TranscriptAfter(t, fragments[1..])
  }

  /** Fragments only extend the transcript, in the order they arrive. */
  lemma {:induction false} TranscriptGrowsInOrder(transcript: string, fragments: seq<Transcription>, k: nat)
    requires k <= |fragments|
    ensures TranscriptAfter(transcript, fragments[..k]) <= TranscriptAfter(transcript, fragments)
    ensures transcript <= TranscriptAfter(transcript, fragments)
    decreases |fragments|
  {
    if fragments != [] {
      var t := AppendFragment(transcript, fragments[0]);
      TranscriptGrowsInOrder(t, fragments[1..], if k == 0 then 0 else k - 1);
      if k > 0 {
        assert fragments[..k][1..] == fragments[1..][..k - 1];
      }
    }
  }

  // ---------------------------------------------------------------------------
  // Messages and the session
  // ---------------------------------------------------------------------------

  /**
   * The audio of a message: the base64 text of
   * `serverContent?.modelTurn?.parts[0]?.inlineData?.data`, and what `atob`
   * makes of it (None when it throws).
   */
  datatype AudioPart = AudioPart(base64: string, binary: Option<string>)

  datatype ServerMessage = ServerMessage(outputTranscription: Option<Transcription>, audio: Option<AudioPart>)

  /** How long a chunk of `byteLength` bytes of mono 16-bit PCM at 24 kHz plays; None when decoding throws. */
  function ChunkDuration(byteLength: nat): (d: Option<real>)
    ensures d.Some? <==> byteLength % 2 == 0 && byteLength > 0
    ensures d.Some? ==> d.value > 0.0 && d.value == (byteLength / 2) as real / 24000.0
  {
    match SampleCount(byteLength)
    case None => None
    case Some(samples) =>
      var frames := samples / OutputChannels;
      if frames == 0 then None else Some(frames as real / OutputSampleRate as real)
  }

  /** The playing time of an audio part; None when it does not decode. */
  function PartDuration(part: AudioPart): (d: Option<real>)
    ensures d.Some? ==> d.value > 0.0
    ensures d.Some? <==> part.binary.Some? && |part.binary.value| % 2 == 0 && |part.binary.value| > 0
  {
    if part.binary.Some? then ChunkDuration(|part.binary.value|) else None
  }

  datatype SessionHandle = NoSession | Open | Closed

  class Studio {
    var isActive: bool
    var error: Option<string>
    var transcription: string
    var session: SessionHandle
    var hasOutputContext: bool
    var nextStart: real
    /** The sources scheduled and not yet ended; a source is named by its creation index. */
    var live: set<nat>
    /** How many sources have been created. */
    var created: nat
    /** The sources whose `onended` has fired. */
    ghost var ended: set<nat>
    ghost var starts: seq<real>
    ghost var durations: seq<real>
    ghost var arrivals: seq<real>
    ghost var stopped: set<nat>
    /** The first source scheduled on the current output context. */
    ghost var epoch: nat

    ghost predicate Valid()
      reads this
    {
      && |starts| == created && |durations| == created && |arrivals| == created
      && epoch <= created
      && (forall i :: i in live ==> i < created)
      && (forall i :: i in ended ==> i < created)
      && (forall i :: 0 <= i < created ==> (i in live <==> i !in ended))
      && (forall i :: 0 <= i < created ==> durations[i] > 0.0 && starts[i] >= arrivals[i])
      && (forall i :: epoch <= i < created - 1 ==> starts[i] + durations[i] <= starts[i + 1])
      && (epoch < created ==> starts[created - 1] + durations[created - 1] <= nextStart)
    }

    constructor ()
      ensures Valid()
      ensures !isActive && error.None? && transcription == "" && session == NoSession
      ensures !hasOutputContext && nextStart == 0.0 && live == {} && created == 0
    {
      isActive, error, transcription, session := false, None, "", NoSession;
      hasOutputContext, nextStart, live, created := false, 0.0, {}, 0;
      starts, durations, arrivals, ended, stopped, epoch := [], [], [], {}, {}, 0;
    }

    /**
     * `startSession`'s state changes, as written. A new output context is
     * made before the microphone is asked for, so it exists even when the
     * start fails; then the session is active, or the error is shown. The
     * new context's clock starts again at its origin, but the counter keeps
     * the previous session's value; the transcript and the live set are kept.
     */
    method StartSession(microphoneGranted: bool, connected: bool)
      requires Valid()
      modifies this`isActive, this`error, this`hasOutputContext, this`epoch, this`session
      ensures Valid()
      ensures isActive == (microphoneGranted && connected) && hasOutputContext
      ensures error == (if microphoneGranted && connected then None else Some(StartErrorText))
      ensures session == (if microphoneGranted && connected then Open else old(session))
      ensures nextStart == old(nextStart) && epoch == created
      ensures transcription == old(transcription) && live == old(live) && created == old(created)
    {
      isActive := true;
      error := None;
      hasOutputContext := true;
      epoch := created;
      if microphoneGranted && connected {
        session := Open;
      } else {
        error := Some(StartErrorText);
        isActive := false;
      }
    }

    /** `startSession` with the counter moved to the new context's clock origin. */
    method StartSessionCorrected(microphoneGranted: bool, connected: bool)
      requires Valid()
      modifies this`isActive, this`error, this`hasOutputContext, this`epoch, this`session, this`nextStart
      ensures Valid()
      ensures isActive == (microphoneGranted && connected) && hasOutputContext
      ensures error == (if microphoneGranted && connected then None else Some(StartErrorText))
      ensures session == (if microphoneGranted && connected then Open else old(session))
      ensures nextStart == SessionClockOrigin && epoch == created
      ensures transcription == old(transcription) && live == old(live) && created == old(created)
    {
      StartSession(microphoneGranted, connected);
      nextStart := SessionClockOrigin;
    }

    /** Whether a message gets its audio scheduled: a non-empty payload and an output context. */
    predicate Plays(msg: ServerMessage)
      reads this
    {
      msg.audio.Some? && msg.audio.value.base64 != "" && hasOutputContext
    }

    /**
     * Start a source of `duration` seconds, arriving at `now`, at the counter
     * (already at least `now`) and advance the counter past it.
     */
    method Schedule(duration: real, ghost now: real) returns (id: nat)
      requires Valid() && duration > 0.0 && nextStart >= now
      modifies this`nextStart, this`live, this`created, this`starts, this`durations, this`arrivals
      ensures Valid()
      ensures id == old(created) && created == old(created) + 1 && live == old(live) + {id}
      ensures starts == old(starts) + [old(nextStart)] && durations == old(durations) + [duration]
      ensures nextStart == old(nextStart) + duration
    {
      id := created;
      starts := starts + [nextStart];
      durations := durations + [duration];
      arrivals := arrivals + [now];
      live := live + {created};
      created := created + 1;
      nextStart := nextStart + duration;
    }

    /**
     * The audio branch of `onmessage`: the counter first moves up to `now`;
     * if the payload decodes, a new source starts at the counter, the counter
     * advances by its duration and the source joins the live set. A payload
     * that fails to decode leaves only the moved counter.
     */
    method PlayAudio(part: AudioPart, now: real) returns (source: Option<nat>)
      requires Valid()
      modifies this`nextStart, this`live, this`created, this`starts, this`durations, this`arrivals
      ensures Valid()
      ensures PartDuration(part).None? ==>
                && source.None?
                && nextStart == ChunkStart(old(nextStart), now) && live == old(live) && created == old(created)
      ensures PartDuration(part).Some? ==>
                && source == Some(old(created)) && created == old(created) + 1
                && live == old(live) + {old(created)}
                && starts == old(starts) + [ChunkStart(old(nextStart), now)]
                && durations == old(durations) + [PartDuration(part).value]
                && nextStart == ChunkStart(old(nextStart), now) + PartDuration(part).value
    {
      nextStart := ChunkStart(nextStart, now);
      if part.binary.None? {
        return None;
      }
      var bytes := Decode(part.binary.value);
      assert bytes.Length == |part.binary.value| by {
        assert |bytes[..]| == |BinaryToBytes(part.binary.value)|;
      }
      var duration := ChunkDuration(bytes.Length);
      if duration.None? {
        return None;
      }
      var id := Schedule(duration.value, now);
      source := Some(id);
    }

    /**
     * `onmessage`. A transcript fragment is appended. Audio with a non-empty
     * payload, when there is an output context, is played as `PlayAudio`
     * says; any other message changes neither the counter nor the live set.
     */
    method OnMessage(msg: ServerMessage, now: real) returns (source: Option<nat>)
      requires Valid()
      modifies this`transcription, this`nextStart, this`live, this`created,
               this`starts, this`durations, this`arrivals
      ensures Valid()
      ensures transcription ==
                if msg.outputTranscription.Some? then AppendFragment(old(transcription), msg.outputTranscription.value)
                else old(transcription)
      ensures !Plays(msg) ==>
                source.None? && nextStart == old(nextStart) && live == old(live) && created == old(created)
      ensures Plays(msg) && PartDuration(msg.audio.value).None? ==>
                && source.None?
                && nextStart == ChunkStart(old(nextStart), now) && live == old(live) && created == old(created)
      ensures Plays(msg) && PartDuration(msg.audio.value).Some? ==>
                && source == Some(old(created)) && created == old(created) + 1
                && live == old(live) + {old(created)}
                && starts == old(starts) + [ChunkStart(old(nextStart), now)]
                && nextStart == ChunkStart(old(nextStart), now) + PartDuration(msg.audio.value).value
    {
      if msg.outputTranscription.Some? {
        transcription := AppendFragment(transcription, msg.outputTranscription.value);
      }
      source := None;
      if Plays(msg) {
        source := PlayAudio(msg.audio.value, now);
      }
    }

    /**
     * A session started as written, then a decodable chunk arriving at `now`
     * on the new clock: it starts at the old counter when that is later, so
     * it waits out the previous session's playback time.
     */
    method RestartAndPlay(part: AudioPart, now: real) returns (source: Option<nat>)
      requires Valid() && part.base64 != "" && PartDuration(part).Some?
      modifies this`isActive, this`error, this`hasOutputContext, this`epoch, this`session,
               this`transcription, this`nextStart, this`live, this`created,
               this`starts, this`durations, this`arrivals
      ensures Valid()
      ensures source == Some(old(created)) && |starts| == old(created) + 1
      ensures starts[old(created)] == ChunkStart(old(nextStart), now)
      ensures old(nextStart) > now ==> starts[old(created)] - now == old(nextStart) - now > 0.0
    {
      StartSession(true, true);
      source := OnMessage(ServerMessage(None, Some(part)), now);
    }

    /** The same with the corrected start: the chunk plays on arrival. */
    method RestartCorrectedAndPlay(part: AudioPart, now: real) returns (source: Option<nat>)
      requires Valid() && part.base64 != "" && PartDuration(part).Some? && now >= SessionClockOrigin
      modifies this`isActive, this`error, this`hasOutputContext, this`epoch, this`session,
               this`transcription, this`nextStart, this`live, this`created,
               this`starts, this`durations, this`arrivals
      ensures Valid()
      ensures source == Some(old(created)) && |starts| == old(created) + 1
      ensures starts[old(created)] == now
    {
      StartSessionCorrected(true, true);
      source := OnMessage(ServerMessage(None, Some(part)), now);
    }

    /**
     * `onended` of a source: it leaves the live set, and only it. So the live
     * set is always the sources created and not yet ended.
     */
    method OnEnded(id: nat)
      requires Valid()
      modifies this`live, this`ended
      ensures Valid()
      ensures live == old(live) - {id}
      ensures ended == if id < created then old(ended) + {id} else old(ended)
    {
      live := live - {id};
      if id < created {
        ended := ended + {id};
      }
    }

    /**
     * `stopSession` (also the `onclose` handler): close the session if there
     * is one, stop every live source and mark the studio inactive. The live
     * set itself empties only as the stopped sources report their end; the
     * counter and the transcript are kept. A second call changes nothing more.
     */
    method StopSession()
      requires Valid()
      modifies this`session, this`isActive, this`stopped
      ensures Valid()
      ensures session == if old(session) == NoSession then NoSession else Closed
      ensures stopped == old(stopped) + live && !isActive
      ensures live == old(live) && nextStart == old(nextStart) && transcription == old(transcription)
    {
      if session != NoSession {
        session := Closed;
      }
      stopped := stopped + live;
      isActive := false;
    }

    /** `onerror`: the error banner is shown; the session is not marked inactive. */
    method OnError()
      modifies this`error
      ensures error == Some(SessionErrorText)
    {
      error := Some(SessionErrorText);
    }
  }
}
