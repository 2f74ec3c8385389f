/**
 * The recording registry of main.py: `recording_states`, a map from guild id
 * to the live session, and the three operations that change it
 * (`start_recording`, `stop_recording_cleanup`, the `/stop` command), plus
 * the voice-state handler that routes events to them.
 *
 * The platform side is abstract: `voice` is each guild's `voice_client`
 * (present means connected), and every call made into the platform is
 * appended to `calls`. A session entry's `voice_client` is the guild's voice
 * client (`Inv` ties the two together); its sink and silence source carry no
 * state this model needs.
 */
module Registry {
  import opened Wrappers
  import opened Presence
  import Settings

  datatype VoiceClient = VoiceClient(channelId: int, recording: bool)

  /** What `recording_states[guild.id]` records: the session's voice channel. */
  datatype Session = Session(channel: Channel)

  /** Calls into the platform, in the order they are made. */
  datatype Call =
    | Connect(guild: int, channelId: int)       // `await channel.connect()`
    | PlaySilence(guild: int)                   // `vc.play(SilenceAudioSource())`
    | StartCapture(guild: int, channelId: int)  // `vc.start_recording(sink, finished_callback, channel)`
    | StopCapture(guild: int)                   // `vc.stop_recording()`; fires `finished_callback` later
    | Disconnect(guild: int)                    // `await vc.disconnect(force=True)`

  datatype World = World(states: map<int, Session>, voice: map<int, VoiceClient>, calls: seq<Call>)

  /** Every registered guild has its voice client, connected to the session's channel. */
  ghost predicate Inv(w: World) {
    forall g :: g in w.states ==> g in w.voice && w.voice[g].channelId == w.states[g].channel.id
  }

  /** How `start_recording` ended. A failed connect raises out of the handler. */
  datatype StartOutcome = AlreadyActive | ConnectFailed | Started

  /** `/stop`'s reply: "not recording", "stopped", or (entry present, not recording) none at all. */
  datatype StopReply = NotRecording | Stopped | NoReply

  // ---------------------------------------------------------------------
  // The three steps on the registry, as functions of the world
  // ---------------------------------------------------------------------

  /** `start_recording(guild, channel)`; `connectOk` is whether `channel.connect()` returns. */
  function StartStep(w: World, g: int, ch: Channel, connectOk: bool): World {
    if g in w.voice || g in w.states then w
    else if !connectOk then w.(calls := w.calls + [Connect(g, ch.id)])
    else World(w.states[g := Session(ch)],
               w.voice[g := VoiceClient(ch.id, true)],
               w.calls + [Connect(g, ch.id), PlaySilence(g), StartCapture(g, ch.id)])
  }

  /** `stop_recording_cleanup(guild)`. */
  function CleanupStep(w: World, g: int): World {
    if g !in w.states then w
    else
      var stop := if g in w.voice && w.voice[g].recording then [StopCapture(g)] else [];
      var leave := if g in w.voice then [Disconnect(g)] else [];
      World(w.states - {g}, w.voice - {g}, w.calls + stop + leave)
  }

  /** The registry effect of `/stop`: capture stops, the entry stays. */
  function StopCommandStep(w: World, g: int): World {
    if g in w.states && g in w.voice && w.voice[g].recording then
      w.(voice := w.voice[g := w.voice[g].(recording := false)], calls := w.calls + [StopCapture(g)])
    else w
  }

  /** What the voice-state handler does once `Decide` has routed the event. */
  function Apply(w: World, g: int, a: Action, connectOk: bool): World {
    match a
    case StartIn(ch) => StartStep(w, g, ch, connectOk)
    case Cleanup => CleanupStep(w, g)
    case Ignore => w
  }

  // ---------------------------------------------------------------------
  // Properties of the steps
  // ---------------------------------------------------------------------

  /** `w2` differs from `w` only at guild `g`, and only appends calls that concern `g`. */
  ghost predicate OnlyTouches(w: World, w2: World, g: int) {
    && w2.states - {g} == w.states - {g}
    && w2.voice - {g} == w.voice - {g}
    && |w.calls| <= |w2.calls| && w2.calls[..|w.calls|] == w.calls
    && forall k :: |w.calls| <= k < |w2.calls| ==> w2.calls[k].guild == g
  }

  /** Each step changes its own guild's entry and voice client only. */
  lemma StepsTouchOneGuild(w: World, g: int, ch: Channel, connectOk: bool)
    ensures OnlyTouches(w, StartStep(w, g, ch, connectOk), g)
    ensures OnlyTouches(w, CleanupStep(w, g), g)
    ensures OnlyTouches(w, StopCommandStep(w, g), g)
  {
  }

  /** Every step keeps each session's voice client connected to its channel. */
  lemma StepsPreserveInv(w: World, g: int, ch: Channel, connectOk: bool)
    requires Inv(w)
    ensures Inv(StartStep(w, g, ch, connectOk))
    ensures Inv(CleanupStep(w, g))
    ensures Inv(StopCommandStep(w, g))
  {
  }

  /**
   * `start_recording` never replaces an entry: a guild already present, or
   * one with a voice client, is left alone; otherwise a failed connect
   * changes neither map, and a successful one adds exactly `g`, after the
   * connect, silence and start-capture calls.
   */
  lemma StartStepEffect(w: World, g: int, ch: Channel, connectOk: bool)
    ensures var w2 := StartStep(w, g, ch, connectOk);
      && ((g in w.states || g in w.voice) ==> w2 == w)
      && (g in w2.states && g !in w.states ==>
            && connectOk
            && w2.states[g] == Session(ch)
            && w2.states.Keys == w.states.Keys + {g}
            && w2.calls[|w.calls|..] == [Connect(g, ch.id), PlaySilence(g), StartCapture(g, ch.id)])
      && (!connectOk ==> w2.states == w.states && w2.voice == w.voice)
      && (g !in w.states && g !in w.voice && connectOk ==>
            && g in w2.states && w2.states[g] == Session(ch)
            && g in w2.voice && w2.voice[g] == VoiceClient(ch.id, true)
            && w2.calls == w.calls + [Connect(g, ch.id), PlaySilence(g), StartCapture(g, ch.id)])
  {
    var w2 := StartStep(w, g, ch, connectOk);
    if g in w2.states && g !in w.states {
      assert w2.calls == w.calls + [Connect(g, ch.id), PlaySilence(g), StartCapture(g, ch.id)];
    }
  }

  /** Two starts in a row for one guild connect once: the second finds the entry. */
  lemma StartTwiceConnectsOnce(w: World, g: int, ch1: Channel, ch2: Channel, ok2: bool)
    ensures StartStep(StartStep(w, g, ch1, true), g, ch2, ok2) == StartStep(w, g, ch1, true)
  {
  }

  /** Cleanup always leaves the guild without an entry, is a no-op for an absent guild, and is idempotent. */
  lemma CleanupEffect(w: World, g: int)
    ensures g !in CleanupStep(w, g).states
    ensures g !in w.states ==> CleanupStep(w, g) == w
    ensures g in w.states ==> g !in CleanupStep(w, g).voice
    ensures CleanupStep(CleanupStep(w, g), g) == CleanupStep(w, g)
  {
  }

  /** Cleanup of a live session stops its capture before disconnecting. */
  lemma CleanupStopsThenDisconnects(w: World, g: int)
    requires Inv(w) && g in w.states
    ensures var c := CleanupStep(w, g).calls[|w.calls|..];
      c == if w.voice[g].recording then [StopCapture(g), Disconnect(g)] else [Disconnect(g)]
  {
    var c := CleanupStep(w, g).calls;
    if w.voice[g].recording {
      assert c == w.calls + [StopCapture(g)] + [Disconnect(g)];
    } else {
      assert c == w.calls + [] + [Disconnect(g)];
    }
  }

  /**
   * `/stop` never removes the entry; without an entry it changes nothing;
   * with one it stops capture exactly when the voice client is recording,
   * and then the client stays connected, no longer recording, and the one
   * call made is the stop-capture.
   */
  lemma StopCommandEffect(w: World, g: int)
    ensures StopCommandStep(w, g).states == w.states
    ensures g !in w.states ==> StopCommandStep(w, g) == w
    ensures StopCommandStep(w, g) != w
        <==> g in w.states && g in w.voice && w.voice[g].recording
    ensures g in w.states && g in w.voice && w.voice[g].recording ==>
        && g in StopCommandStep(w, g).voice
        && StopCommandStep(w, g).voice[g] == w.voice[g].(recording := false)
        && StopCommandStep(w, g).calls == w.calls + [StopCapture(g)]
  {
    if g in w.states && g in w.voice && w.voice[g].recording {
      assert |StopCommandStep(w, g).calls| == |w.calls| + 1;
    }
  }

  /** After a manual `/stop` the entry remains, so no join can start a new recording. */
  lemma ManualStopBlocksRestart(w: World, g: int, catSetting: Option<int>, after: Option<Channel>,
                                category: Option<Category>, ch: Channel)
    requires g in w.states
    ensures var w2 := StopCommandStep(w, g);
      Decide(false, catSetting, None, after, g in w2.states, g in w2.voice, category) != StartIn(ch)
  {
  }

  // ---------------------------------------------------------------------
  // Capture is stopped at most once per capture started
  // ---------------------------------------------------------------------

  datatype Kind = Starts | Stops

  predicate IsKind(c: Call, k: Kind, g: int) {
    match k
    case Starts => c.StartCapture? && c.guild == g
    case Stops => c.StopCapture? && c.guild == g
  }

  function Count(cs: seq<Call>, k: Kind, g: int): nat {
    if cs == [] then 0
    else Count(cs[..|cs| - 1], k, g) + (if IsKind(cs[|cs| - 1], k, g) then 1 else 0)
  }

  lemma {:induction false} CountAppend(a: seq<Call>, b: seq<Call>, k: Kind, g: int)
    ensures Count(a + b, k, g) == Count(a, k, g) + Count(b, k, g)
    decreases |b|
  {
    if b != [] {
      var n := |b| - 1;
      assert (a + b)[..|a + b| - 1] == a + b[..n];
      CountAppend(a, b[..n], k, g);
    } else {
      assert a + b == a;
    }
  }

  lemma CountSingle(c: Call, k: Kind, g: int)
    ensures Count([c], k, g) == if IsKind(c, k, g) then 1 else 0
  {
    assert [c][..0] == [];
  }

  /** A voice client whose capture is running, under a registered session. */
  function Armed(w: World, g: int): nat {
    if g in w.states && g in w.voice && w.voice[g].recording then 1 else 0
  }

  /** One step of the bot: a routed voice-state event, or the `/stop` command. */
  datatype Op = Routed(guild: int, action: Action, connectOk: bool) | ManualStop(guild: int)

  function Step(w: World, op: Op): World {
    match op
    case Routed(h, a, ok) => Apply(w, h, a, ok)
    case ManualStop(h) => StopCommandStep(w, h)
  }

  function Run(w: World, ops: seq<Op>): World
    decreases |ops|
  {
    if ops == [] then w else Run(Step(w, ops[0]), ops[1..])
  }

  /** The balance `StopsNeverExceedStarts` keeps, for the calls `w2` adds to `w`. */
  ghost predicate Balanced(w: World, w2: World, g: int) {
    && |w.calls| <= |w2.calls| && w2.calls[..|w.calls|] == w.calls
    && Count(w2.calls[|w.calls|..], Stops, g) + Armed(w2, g)
       <= Armed(w, g) + Count(w2.calls[|w.calls|..], Starts, g)
  }

  lemma StartBalance(w: World, h: int, ch: Channel, ok: bool, g: int)
    ensures Balanced(w, StartStep(w, h, ch, ok), g)
  {
    var w2 := StartStep(w, h, ch, ok);
    var d := w2.calls[|w.calls|..];
    if h in w.voice || h in w.states {
      assert d == [];
    } else if !ok {
      assert d == [Connect(h, ch.id)];
      CountSingle(Connect(h, ch.id), Stops, g);
      CountSingle(Connect(h, ch.id), Starts, g);
    } else {
      var c1, c2, c3 := Connect(h, ch.id), PlaySilence(h), StartCapture(h, ch.id);
      assert d == [c1] + [c2] + [c3];
      forall k: Kind ensures Count(d, k, g) == Count([c1], k, g) + Count([c2], k, g) + Count([c3], k, g) {
        CountAppend([c1], [c2], k, g);
        CountAppend([c1] + [c2], [c3], k, g);
      }
      CountSingle(c1, Stops, g); CountSingle(c2, Stops, g); CountSingle(c3, Stops, g);
      CountSingle(c1, Starts, g); CountSingle(c2, Starts, g); CountSingle(c3, Starts, g);
    }
  }

  lemma CleanupBalance(w: World, h: int, g: int)
    ensures Balanced(w, CleanupStep(w, h), g)
  {
    var w2 := CleanupStep(w, h);
    var d := w2.calls[|w.calls|..];
    if h !in w.states {
      assert d == [];
    } else {
      assert g != h ==> Armed(w2, g) == Armed(w, g);
      assert g == h ==> Armed(w2, g) == 0;
      if h !in w.voice {
        assert d == [];
      } else if w.voice[h].recording {
        assert d == [StopCapture(h)] + [Disconnect(h)];
        CountPair(StopCapture(h), Disconnect(h), g);
      } else {
        assert d == [Disconnect(h)];
        CountSingle(Disconnect(h), Stops, g);
        CountSingle(Disconnect(h), Starts, g);
      }
    }
  }

  lemma CountPair(c1: Call, c2: Call, g: int)
    ensures Count([c1] + [c2], Stops, g) == Count([c1], Stops, g) + Count([c2], Stops, g)
    ensures Count([c1] + [c2], Starts, g) == Count([c1], Starts, g) + Count([c2], Starts, g)
    ensures Count([c1] + [c2], Stops, g) == (if IsKind(c1, Stops, g) then 1 else 0) + (if IsKind(c2, Stops, g) then 1 else 0)
    ensures Count([c1] + [c2], Starts, g) == (if IsKind(c1, Starts, g) then 1 else 0) + (if IsKind(c2, Starts, g) then 1 else 0)
  {
    CountAppend([c1], [c2], Stops, g);
    CountAppend([c1], [c2], Starts, g);
    CountSingle(c1, Stops, g); CountSingle(c2, Stops, g);
    CountSingle(c1, Starts, g); CountSingle(c2, Starts, g);
  }

  lemma StopCommandBalance(w: World, h: int, g: int)
    ensures Balanced(w, StopCommandStep(w, h), g)
  {
    var w2 := StopCommandStep(w, h);
    var d := w2.calls[|w.calls|..];
    if h in w.states && h in w.voice && w.voice[h].recording {
      assert d == [StopCapture(h)];
      CountSingle(StopCapture(h), Stops, g);
      CountSingle(StopCapture(h), Starts, g);
    } else {
      assert d == [];
    }
  }

  lemma StepBalance(w: World, op: Op, g: int)
    ensures Balanced(w, Step(w, op), g)
  {
    match op {
      case Routed(h, a, ok) =>
        match a {
          case StartIn(ch) => StartBalance(w, h, ch, ok, g);
          case Cleanup => CleanupBalance(w, h, g);
          case Ignore => assert w.calls[|w.calls|..] == [];
        }
      case ManualStop(h) => StopCommandBalance(w, h, g);
    }
  }

  /**
   * Over any run, per guild, stop-captures never outnumber start-captures
   * (plus the one capture already running): `finished_callback`, and so
   * `process_recording`, fires at most once per session.
   */
  lemma {:induction false} StopsNeverExceedStarts(w: World, ops: seq<Op>, g: int)
    ensures Balanced(w, Run(w, ops), g)
    decreases |ops|
  {
    if ops != [] {
      var w1 := Step(w, ops[0]);
      var w2 := Run(w, ops);
      StepBalance(w, ops[0], g);
      StopsNeverExceedStarts(w1, ops[1..], g);
      assert w2 == Run(w1, ops[1..]);
      var d1 := w1.calls[|w.calls|..];
      var d2 := w2.calls[|w1.calls|..];
      assert w2.calls[|w.calls|..] == d1 + d2;
      CountAppend(d1, d2, Stops, g);
      CountAppend(d1, d2, Starts, g);
    }
  }

  /** From a fresh process, no guild ever sees more stop-captures than start-captures. */
  lemma FreshBotStopsAtMostStarts(orphans: map<int, VoiceClient>, ops: seq<Op>, g: int)
    ensures var cs := Run(World(map[], orphans, []), ops).calls;
      Count(cs, Stops, g) <= Count(cs, Starts, g)
  {
    var w := World(map[], orphans, []);
    StopsNeverExceedStarts(w, ops, g);
    assert Run(w, ops).calls[|w.calls|..] == Run(w, ops).calls;
  }

  /** Every run keeps the invariant. */
  lemma {:induction false} RunPreservesInv(w: World, ops: seq<Op>)
    requires Inv(w)
    ensures Inv(Run(w, ops))
    decreases |ops|
  {
    if ops != [] {
      match ops[0] {
        case Routed(h, a, ok) =>
          StepsPreserveInv(w, h, if a.StartIn? then a.channel else Channel(0, None), ok);
        case ManualStop(h) =>
          StepsPreserveInv(w, h, Channel(0, None), false);
      }
      RunPreservesInv(Step(w, ops[0]), ops[1..]);
    }
  }

  // ---------------------------------------------------------------------
  // The bot's registry, updated in place
  // ---------------------------------------------------------------------

  class Bot {
    var recordingStates: map<int, Session>
    var voiceClients: map<int, VoiceClient>
    var calls: seq<Call>

    function State(): World
      reads this
    {
      World(recordingStates, voiceClients, calls)
    }

    /** A fresh process: no sessions; `orphans` are voice clients the platform already holds. */
    constructor (orphans: map<int, VoiceClient>)
      ensures State() == World(map[], orphans, [])
      ensures Inv(State())
    {
      recordingStates := map[];
      voiceClients := orphans;
      calls := [];
    }

    method StartRecording(guildId: int, channel: Channel, connectOk: bool) returns (outcome: StartOutcome)
      requires Inv(State())
      modifies this
      ensures State() == StartStep(old(State()), guildId, channel, connectOk)
      ensures Inv(State())
      ensures outcome == AlreadyActive <==> guildId in old(voiceClients) || guildId in old(recordingStates)
      ensures outcome == Started <==> guildId !in old(recordingStates) && guildId in recordingStates
      ensures outcome == Started <==> guildId !in old(voiceClients) && guildId !in old(recordingStates) && connectOk
      ensures outcome == Started ==> recordingStates[guildId] == Session(channel)
    {
      StepsPreserveInv(State(), guildId, channel, connectOk);
      if guildId in voiceClients || guildId in recordingStates {
        return AlreadyActive;
      }
      calls := calls + [Connect(guildId, channel.id)];
      if !connectOk {
        return ConnectFailed;
      }
      voiceClients := voiceClients[guildId := VoiceClient(channel.id, false)];
      calls := calls + [PlaySilence(guildId)];
      calls := calls + [StartCapture(guildId, channel.id)];
      voiceClients := voiceClients[guildId := VoiceClient(channel.id, true)];
      recordingStates := recordingStates[guildId := Session(channel)];
      outcome := Started;
    }

    method StopRecordingCleanup(guildId: int)
      requires Inv(State())
      modifies this
      ensures State() == CleanupStep(old(State()), guildId)
      ensures Inv(State())
      ensures guildId !in recordingStates
    {
      StepsPreserveInv(State(), guildId, Channel(0, None), false);
      if guildId !in recordingStates {
        return;
      }
      recordingStates := recordingStates - {guildId};
      if guildId in voiceClients && voiceClients[guildId].recording {
        calls := calls + [StopCapture(guildId)];
        voiceClients := voiceClients[guildId := voiceClients[guildId].(recording := false)];
      }
      if guildId in voiceClients {
        calls := calls + [Disconnect(guildId)];
        voiceClients := voiceClients - {guildId};
      }
    }

    method StopCommand(guildId: int) returns (reply: StopReply)
      requires Inv(State())
      modifies this
      ensures State() == StopCommandStep(old(State()), guildId)
      ensures Inv(State())
      ensures recordingStates == old(recordingStates)
      ensures reply == NotRecording <==> guildId !in old(recordingStates)
      ensures reply == Stopped <==> old(State()) != State()
      ensures reply == Stopped <==> guildId in old(recordingStates) && old(voiceClients[guildId].recording)
      ensures reply == Stopped ==> voiceClients[guildId] == old(voiceClients[guildId]).(recording := false)
    {
      StepsPreserveInv(State(), guildId, Channel(0, None), false);
      if guildId !in recordingStates {
        return NotRecording;
      }
      if guildId in voiceClients && voiceClients[guildId].recording {
        calls := calls + [StopCapture(guildId)];
        voiceClients := voiceClients[guildId := voiceClients[guildId].(recording := false)];
        return Stopped;
      }
      reply := NoReply;
    }

    /** `on_voice_state_update(member, before, after)`. */
    method OnVoiceStateUpdate(isBot: bool, guildId: int, before: Option<Channel>, after: Option<Channel>,
                              settings: Settings.ConfigManager, category: Option<Category>, connectOk: bool)
      requires Inv(State())
      modifies this
      ensures Inv(State())
      ensures State() == Apply(old(State()), guildId,
                               Decide(isBot, settings.GetChannels(guildId).voiceCategoryId, before, after,
                                      guildId in old(recordingStates), guildId in old(voiceClients), category),
                               connectOk)
    {
      var catSetting := settings.GetChannels(guildId).voiceCategoryId;
      var action := Decide(isBot, catSetting, before, after,
                           guildId in recordingStates, guildId in voiceClients, category);
      match action {
        case StartIn(ch) =>
          var _ := StartRecording(guildId, ch, connectOk);
        case Cleanup =>
          StopRecordingCleanup(guildId);
        case Ignore =>
      }
    }
  }
}
