/**
 * The decision rule of `on_voice_state_update` in main.py: given one voice
 * state change and what the bot can see at that moment, start a recording,
 * run the stop-and-cleanup step, or do nothing.
 */
module Presence {
  import opened Wrappers

  /** A voice channel as an event carries it: its id and its category, if any. */
  datatype Channel = Channel(id: int, categoryId: Option<int>)

  datatype Member = Member(isBot: bool)

  /** A voice channel of the category with the members now in it. */
  datatype VoiceChannel = VoiceChannel(id: int, members: seq<Member>)

  /** `cat.voice_channels`, as the category resolves at the moment of the event. */
  type Category = seq<VoiceChannel>

  datatype Action = StartIn(channel: Channel) | Cleanup | Ignore

  /** Python truthiness of an optional id: `None` and `0` are both false. */
  predicate Truthy(id: Option<int>) {
    id.Some? && id.value != 0
  }

  /** `is_target(ch)`: a channel is there and lies in the configured category. */
  predicate IsTarget(ch: Option<Channel>, catId: int) {
    ch.Some? && ch.value.categoryId == Some(catId)
  }

  /** `[m for m in members if not m.bot]`. */
  function NonBots(ms: seq<Member>): (r: seq<Member>)
    ensures |r| <= |ms|
    ensures forall i :: 0 <= i < |r| ==> !r[i].isBot
  {
    if ms == [] then []
    else if ms[|ms| - 1].isBot then NonBots(ms[..|ms| - 1])
    else NonBots(ms[..|ms| - 1]) + [ms[|ms| - 1]]
  }

  /** `all(len(non-bots of vc) == 0 for vc in category)`. */
  predicate NobodyLeft(cat: Category) {
    forall i :: 0 <= i < |cat| ==> |NonBots(cat[i].members)| == 0
  }

  /** The same condition stated directly: every member still in the category is a bot. */
  ghost predicate OnlyBotsIn(cat: Category) {
    forall i, j :: 0 <= i < |cat| && 0 <= j < |cat[i].members| ==> cat[i].members[j].isBot
  }

  /**
   * The whole handler as one decision. `registered` is `guild_id in
   * recording_states`, `hasVoiceClient` is `member.guild.voice_client`, and
   * `category` is what `bot.get_channel(cat_id)` returns now.
   */
  function Decide(isBot: bool, catSetting: Option<int>, before: Option<Channel>, after: Option<Channel>,
                  registered: bool, hasVoiceClient: bool, category: Option<Category>): Action
  {
    if isBot || !Truthy(catSetting) then Ignore
    else
      var catId := catSetting.value;
      if before.None? && IsTarget(after, catId) then
        if !registered && !hasVoiceClient then StartIn(after.value) else Ignore
      else if IsTarget(before, catId) then
        if category.Some? && NobodyLeft(category.value) then Cleanup else Ignore
      else Ignore
  }

  // ---------------------------------------------------------------------
  // Properties of the decision
  // ---------------------------------------------------------------------

  lemma {:induction false} NonBotsEmptyIff(ms: seq<Member>)
    ensures |NonBots(ms)| == 0 <==> forall j :: 0 <= j < |ms| ==> ms[j].isBot
  {
    if ms != [] {
      var init := ms[..|ms| - 1];
      NonBotsEmptyIff(init);
      assert forall j :: 0 <= j < |init| ==> init[j] == ms[j];
    }
  }

  /** The `all(...)` comprehension holds exactly when only bots remain in the category. */
  lemma NobodyLeftIff(cat: Category)
    ensures NobodyLeft(cat) <==> OnlyBotsIn(cat)
  {
    forall i | 0 <= i < |cat| {
      NonBotsEmptyIff(cat[i].members);
    }
  }

  /** Events from bots, and guilds without a (truthy) category, never start or stop anything. */
  lemma BotsAndUnconfiguredIgnored(isBot: bool, catSetting: Option<int>, before: Option<Channel>,
                                   after: Option<Channel>, registered: bool, hasVoiceClient: bool,
                                   category: Option<Category>)
    requires isBot || catSetting == None || catSetting == Some(0)
    ensures Decide(isBot, catSetting, before, after, registered, hasVoiceClient, category) == Ignore
  {
  }

  /** A start happens exactly on a join from nowhere into the category, with no session and no voice client. */
  lemma StartIff(isBot: bool, catSetting: Option<int>, before: Option<Channel>, after: Option<Channel>,
                 registered: bool, hasVoiceClient: bool, category: Option<Category>, ch: Channel)
    ensures Decide(isBot, catSetting, before, after, registered, hasVoiceClient, category) == StartIn(ch)
        <==> (&& !isBot && Truthy(catSetting)
              && before == None && after == Some(ch) && ch.categoryId == catSetting
              && !registered && !hasVoiceClient)
  {
  }

  /**
   * Cleanup happens exactly when the join branch is not taken, the member
   * left a channel of the category, the category resolves and only bots
   * remain in it.
   */
  lemma CleanupIff(isBot: bool, catSetting: Option<int>, before: Option<Channel>, after: Option<Channel>,
                   registered: bool, hasVoiceClient: bool, category: Option<Category>)
    ensures Decide(isBot, catSetting, before, after, registered, hasVoiceClient, category) == Cleanup
        <==> (&& !isBot && Truthy(catSetting)
              && !(before.None? && IsTarget(after, catSetting.value))
              && IsTarget(before, catSetting.value)
              && category.Some? && OnlyBotsIn(category.value))
  {
    if category.Some? {
      NobodyLeftIff(category.value);
    }
  }

  /**
   * A join that is blocked by an existing session or voice client does not
   * fall through to the stop branch.
   */
  lemma BlockedJoinIsIgnored(catSetting: Option<int>, after: Option<Channel>,
                             registered: bool, hasVoiceClient: bool, category: Option<Category>)
    requires Truthy(catSetting) && IsTarget(after, catSetting.value)
    requires registered || hasVoiceClient
    ensures Decide(false, catSetting, None, after, registered, hasVoiceClient, category) == Ignore
  {
  }

  /** A human still in any channel of the category prevents the cleanup. */
  lemma {:induction false} HumanPresentBlocksCleanup(isBot: bool, catSetting: Option<int>, before: Option<Channel>,
                                                     after: Option<Channel>, registered: bool, hasVoiceClient: bool,
                                                     cat: Category, i: nat, j: nat)
    requires i < |cat| && j < |cat[i].members| && !cat[i].members[j].isBot
    ensures Decide(isBot, catSetting, before, after, registered, hasVoiceClient, Some(cat)) != Cleanup
  {
    NonBotsEmptyIff(cat[i].members);
  }
}
