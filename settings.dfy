/**
 * The per-guild settings table of config_manager.py: a dictionary from
 * `str(guild_id)` to a record holding an optional voice category id and an
 * optional text channel id. The pure functions below describe the table as
 * a value; `ConfigManager` updates one in place through them.
 */
module Settings {
  import opened Wrappers
  import GuildKey

  /** One guild's record; a missing dictionary key is a `None` field. */
  datatype Record = Record(voiceCategoryId: Option<int>, textChannelId: Option<int>)

  /** The `{}` that `get_channels` returns for a guild without a record. */
  const Empty := Record(None, None)

  type Table = map<string, Record>

  /** `data.get(str(guild_id), {})`. */
  function Lookup(t: Table, guildId: int): Record {
    var k := GuildKey.Str(guildId);
    if k in t then t[k] else Empty
  }

  /** `data.setdefault(str(guild_id), {})["voice_category_id"] = cat_id`. */
  function WithVoiceCategory(t: Table, guildId: int, catId: int): Table {
    t[GuildKey.Str(guildId) := Lookup(t, guildId).(voiceCategoryId := Some(catId))]
  }

  /** `data.setdefault(str(guild_id), {})["text_channel_id"] = ch_id`. */
  function WithTextChannel(t: Table, guildId: int, chId: int): Table {
    t[GuildKey.Str(guildId) := Lookup(t, guildId).(textChannelId := Some(chId))]
  }

  /** `data.pop(str(guild_id), None)`. */
  function Without(t: Table, guildId: int): Table {
    t - {GuildKey.Str(guildId)}
  }

  // ---------------------------------------------------------------------
  // Properties of the table operations
  // ---------------------------------------------------------------------

  /** A guild without a record reads as `{}`, with neither field set. */
  lemma LookupMissing(t: Table, guildId: int)
    requires GuildKey.Str(guildId) !in t
    ensures Lookup(t, guildId) == Empty
  {
  }

  /** A set is read back, and the record's other field survives it. */
  lemma SetVoiceCategoryReadBack(t: Table, guildId: int, catId: int)
    ensures Lookup(WithVoiceCategory(t, guildId, catId), guildId).voiceCategoryId == Some(catId)
    ensures Lookup(WithVoiceCategory(t, guildId, catId), guildId).textChannelId
         == Lookup(t, guildId).textChannelId
  {
  }

  lemma SetTextChannelReadBack(t: Table, guildId: int, chId: int)
    ensures Lookup(WithTextChannel(t, guildId, chId), guildId).textChannelId == Some(chId)
    ensures Lookup(WithTextChannel(t, guildId, chId), guildId).voiceCategoryId
         == Lookup(t, guildId).voiceCategoryId
  {
  }

  /** Setting the same value twice leaves the same table as setting it once. */
  lemma SetIdempotent(t: Table, guildId: int, catId: int, chId: int)
    ensures WithVoiceCategory(WithVoiceCategory(t, guildId, catId), guildId, catId)
         == WithVoiceCategory(t, guildId, catId)
    ensures WithTextChannel(WithTextChannel(t, guildId, chId), guildId, chId)
         == WithTextChannel(t, guildId, chId)
  {
  }

  /** The two setters touch different fields, so their order does not matter. */
  lemma SettersCommute(t: Table, guildId: int, catId: int, chId: int)
    ensures WithTextChannel(WithVoiceCategory(t, guildId, catId), guildId, chId)
         == WithVoiceCategory(WithTextChannel(t, guildId, chId), guildId, catId)
         == t[GuildKey.Str(guildId) := Record(Some(catId), Some(chId))]
  {
  }

  /** After an unset the guild reads as `{}`; unsetting an absent guild changes nothing. */
  lemma UnsetClears(t: Table, guildId: int)
    ensures Lookup(Without(t, guildId), guildId) == Empty
    ensures GuildKey.Str(guildId) !in t ==> Without(t, guildId) == t
    ensures Without(Without(t, guildId), guildId) == Without(t, guildId)
  {
  }

  /**
   * Every update for one guild leaves every other guild's record as it was:
   * distinct guild ids never share a key.
   */
  lemma {:induction false} OtherGuildsUnchanged(t: Table, guildId: int, other: int, catId: int, chId: int)
    requires other != guildId
    ensures Lookup(WithVoiceCategory(t, guildId, catId), other) == Lookup(t, other)
    ensures Lookup(WithTextChannel(t, guildId, chId), other) == Lookup(t, other)
    ensures Lookup(Without(t, guildId), other) == Lookup(t, other)
  {
    GuildKey.DistinctGuildsDistinctKeys(guildId, other);
  }

  /**
   * The settings object of config_manager.py. `data` is what `_load_config`
   * produced; every mutation is followed by `_save`, which is file I/O and
   * not part of this model.
   */
  class ConfigManager {
    var data: Table

    constructor (loaded: Table)
      ensures data == loaded
    {
      data := loaded;
    }

    method SetVoiceCategory(guildId: int, catId: int)
      modifies this
      ensures data == WithVoiceCategory(old(data), guildId, catId)
      ensures GetChannels(guildId) == old(GetChannels(guildId)).(voiceCategoryId := Some(catId))
      ensures forall g :: g != guildId ==> GetChannels(g) == old(GetChannels(g))
    {
      data := WithVoiceCategory(data, guildId, catId);
      forall g | g != guildId ensures GetChannels(g) == old(GetChannels(g)) {
        OtherGuildsUnchanged(old(data), guildId, g, catId, 0);
      }
    }

    method SetTextChannel(guildId: int, chId: int)
      modifies this
      ensures data == WithTextChannel(old(data), guildId, chId)
      ensures GetChannels(guildId) == old(GetChannels(guildId)).(textChannelId := Some(chId))
      ensures forall g :: g != guildId ==> GetChannels(g) == old(GetChannels(g))
    {
      data := WithTextChannel(data, guildId, chId);
      forall g | g != guildId ensures GetChannels(g) == old(GetChannels(g)) {
        OtherGuildsUnchanged(old(data), guildId, g, 0, chId);
      }
    }

    /** `get_channels`: the guild's record, or `{}`. */
    function GetChannels(guildId: int): Record
      reads this
    {
      Lookup(data, guildId)
    }

    method UnsetChannels(guildId: int)
      modifies this
      ensures data == Without(old(data), guildId)
      ensures GetChannels(guildId) == Empty
      ensures forall g :: g != guildId ==> GetChannels(g) == old(GetChannels(g))
    {
      data := Without(data, guildId);
      forall g | g != guildId ensures GetChannels(g) == old(GetChannels(g)) {
        OtherGuildsUnchanged(old(data), guildId, g, 0, 0);
      }
    }
  }
}
