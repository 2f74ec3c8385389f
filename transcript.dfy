/**
 * `process_recording` in main.py: read every speaker's buffer out of the
 * sink in `audio_data` order, join them byte by byte, transcribe, enhance,
 * and post the enhanced text to the configured text channel. Transcription,
 * enhancement and sending are calls outside the model: what the first two
 * give back (a value, or an exception) is a parameter, and every call made
 * is returned in order, with its argument. Also here: the connection keep-alive frame of
 * `SilenceAudioSource.read`.
 */
module Transcript {
  import opened Wrappers
  import Presence
  import Settings

  newtype byte = x: int | 0 <= x < 256

  /** One entry of `sink.audio_data`: a speaker and the bytes their file holds. */
  datatype AudioData = AudioData(user: int, file: seq<byte>)

  datatype Call =
    | Transcribe(audio: seq<byte>)           // `gemini_client.transcribe_audio` on the joined bytes
    | Enhance(text: string)                  // `gemini_client.enhance_transcription(text or "")`
    | Send(channelId: int, content: string)  // `ch.send(file=transcript.txt)` with the enhanced text

  /** The speakers' files, in `audio_data` order. */
  function Files(a: seq<AudioData>): (r: seq<seq<byte>>)
    ensures |r| == |a|
    ensures forall k :: 0 <= k < |a| ==> r[k] == a[k].file
  {
    if a == [] then [] else Files(a[..|a| - 1]) + [a[|a| - 1].file]
  }

  /** `b"".join(blobs)`. */
  function Join(blobs: seq<seq<byte>>): seq<byte> {
    if blobs == [] then [] else Join(blobs[..|blobs| - 1]) + blobs[|blobs| - 1]
  }

  /** Total length of the blobs. */
  function TotalSize(blobs: seq<seq<byte>>): nat {
    if blobs == [] then 0 else TotalSize(blobs[..|blobs| - 1]) + |blobs[|blobs| - 1]|
  }

  /** Where blob `k` begins in the joined buffer. */
  function Offset(blobs: seq<seq<byte>>, k: nat): nat
    requires k <= |blobs|
  {
    TotalSize(blobs[..k])
  }

  // ---------------------------------------------------------------------
  // The joined buffer is a plain concatenation
  // ---------------------------------------------------------------------

  lemma {:induction false} JoinSize(blobs: seq<seq<byte>>)
    ensures |Join(blobs)| == TotalSize(blobs)
  {
    if blobs != [] {
      JoinSize(blobs[..|blobs| - 1]);
    }
  }

  lemma {:induction false} JoinPrefix(blobs: seq<seq<byte>>, k: nat)
    requires k <= |blobs|
    ensures |Join(blobs[..k])| <= |Join(blobs)|
    ensures Join(blobs)[..|Join(blobs[..k])|] == Join(blobs[..k])
    decreases |blobs|
  {
    if k < |blobs| {
      var init := blobs[..|blobs| - 1];
      assert init[..k] == blobs[..k];
      JoinPrefix(init, k);
    } else {
      assert blobs[..k] == blobs;
    }
  }

  /** Blob `k` sits in the joined buffer at its offset, unchanged. */
  lemma JoinPlacesEachBlob(blobs: seq<seq<byte>>, k: nat)
    requires k < |blobs|
    ensures Offset(blobs, k) + |blobs[k]| <= |Join(blobs)|
    ensures Join(blobs)[Offset(blobs, k)..Offset(blobs, k) + |blobs[k]|] == blobs[k]
  {
    var pre := blobs[..k + 1];
    assert pre[..k] == blobs[..k];
    assert Join(pre) == Join(blobs[..k]) + blobs[k];
    JoinSize(blobs[..k]);
    JoinPrefix(blobs, k + 1);
  }

  /**
   * The merged recording holds every speaker's file of `audio_data`,
   * unchanged and in order: speaker `k`'s file starts where the files of
   * the speakers before it end, and nothing else is in it.
   */
  lemma MergedRecording(a: seq<AudioData>)
    ensures |Join(Files(a))| == TotalSize(Files(a))
    ensures forall k :: 0 <= k < |a| ==>
      && Offset(Files(a), k) + |a[k].file| <= |Join(Files(a))|
      && Join(Files(a))[Offset(Files(a), k)..Offset(Files(a), k) + |a[k].file|] == a[k].file
  {
    var blobs := Files(a);
    JoinSize(blobs);
    forall k | 0 <= k < |a|
      ensures Offset(blobs, k) + |a[k].file| <= |Join(blobs)|
      ensures Join(blobs)[Offset(blobs, k)..Offset(blobs, k) + |a[k].file|] == a[k].file
    {
      JoinPlacesEachBlob(blobs, k);
    }
  }

  /** A recording made only of empty buffers merges to an empty buffer, which is still transcribed. */
  lemma {:induction false} EmptyBuffersJoinEmpty(blobs: seq<seq<byte>>)
    requires forall k :: 0 <= k < |blobs| ==> blobs[k] == []
    ensures Join(blobs) == []
  {
    if blobs != [] {
      EmptyBuffersJoinEmpty(blobs[..|blobs| - 1]);
    }
  }

  // ---------------------------------------------------------------------
  // The pipeline
  // ---------------------------------------------------------------------

  /** The text channel the transcript goes to: a truthy `text_channel_id` that resolves. */
  predicate Publishes(r: Settings.Record, resolvable: set<int>) {
    Presence.Truthy(r.textChannelId) && r.textChannelId.value in resolvable
  }

  /**
   * `process_recording(sink, channel)`. `settings` is what `get_channels`
   * returns for the channel's guild, and `resolvable` holds the channel ids
   * `bot.get_channel` finds. `transcribed` and `enhanced` are what the two
   * AI calls give back when they are made; an exception from either ends the
   * pipeline before anything is sent.
   */
  method ProcessRecording(audioData: seq<AudioData>, settings: Settings.Record, resolvable: set<int>,
                          transcribed: Reply<Option<string>>, enhanced: Reply<string>) returns (calls: seq<Call>)
    ensures |audioData| == 0 <==> calls == []
    ensures |audioData| > 0 ==> |calls| >= 1 && calls[0] == Transcribe(Join(Files(audioData)))
    ensures |calls| >= 1 ==> (|calls| >= 2 <==> transcribed.Returned?)
    ensures |calls| >= 2 ==>
      (transcribed.Returned? && calls[1] == Enhance(transcribed.value.GetOr(""))
       && (|calls| >= 3 <==> enhanced.Returned? && Publishes(settings, resolvable)))
    ensures |calls| >= 3 ==>
      (enhanced.Returned? && Publishes(settings, resolvable)
       && calls[2] == Send(settings.textChannelId.value, enhanced.value))
    ensures |calls| <= 3
  {
    var blobs: seq<seq<byte>> := [];
    var i := 0;
    while i < |audioData|
      invariant 0 <= i <= |audioData|
      invariant |blobs| == i
      invariant forall k :: 0 <= k < i ==> blobs[k] == audioData[k].file
    {
      blobs := blobs + [audioData[i].file];
      i := i + 1;
    }
    assert blobs == Files(audioData);

    calls := [];
    if |blobs| > 0 {
      var combined := Join(blobs);
      calls := [Transcribe(combined)];
      if transcribed.Returned? {
        var raw := transcribed.value.GetOr("");
        calls := calls + [Enhance(raw)];
        if enhanced.Returned? {
          var textId := settings.textChannelId;
          if Presence.Truthy(textId) && textId.value in resolvable {
            calls := calls + [Send(textId.value, enhanced.value)];
          }
        }
      }
    }
  }

  // ---------------------------------------------------------------------
  // The keep-alive source
  // ---------------------------------------------------------------------

  const SampleRate := 48000
  const ChannelCount := 2
  const SampleWidth := 2
  const FrameMillis := 20

  /** `SilenceAudioSource.read`: one 20 ms frame of 48 kHz, stereo, 16-bit silence. */
  function SilenceFrame(): (r: seq<byte>)
    ensures |r| == SampleRate * ChannelCount * SampleWidth * FrameMillis / 1000
    ensures forall i :: 0 <= i < |r| ==> r[i] == 0
  {
    seq(3840, _ => 0)
  }
}
