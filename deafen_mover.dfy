/** The voice-state handler: a per-member record of the channel each member
    was in when they deafened, and the decision whether to move a member to
    the fixed "deafened" channel or back to where they came from. */
module DeafenMover {
  import opened VoiceEvents

  /** The two configuration values the handler reads: the one guild it acts
      on and the id of the channel deafened members are moved to. */
  datatype Config = Config(guildId: int, deafenedChannelId: int)

  /** The result of handling one update: the member-to-channel records
      afterwards, and the channel a move is requested to, if any. */
  datatype Outcome = Outcome(records: map<int, int>, move: Option<int>)

  /** Only the entry of `id` may differ between `records` and `records'`. */
  ghost predicate OthersUnchanged(records: map<int, int>, records': map<int, int>, id: int)
  {
    forall k :: k != id ==>
      (k in records' <==> k in records) && (k in records ==> records'[k] == records[k])
  }

  /** The deafen branch: remember the current channel (before anything is
      validated), then request a move to the deafened channel unless it does
      not resolve to a voice channel or the member is already in it. */
  function DeafenStep(cfg: Config, records: map<int, int>, id: int,
                      after: VoiceState, guild: Guild): (o: Outcome)
    ensures after.channel.None? ==> o == Outcome(records, None)
    ensures after.channel.Some? ==> id in o.records && o.records[id] == after.channel.value
    ensures OthersUnchanged(records, o.records, id)
    ensures o.move.Some? ==> o.move.value == cfg.deafenedChannelId
    ensures o.move.Some? <==> (after.channel.Some? &&
                               IsVoiceChannel(guild, cfg.deafenedChannelId) &&
                               after.channel.value != cfg.deafenedChannelId)
  {
    match after.channel
    case None => Outcome(records, None)
    case Some(current) =>
      var records' := records[id := current];
      if !IsVoiceChannel(guild, cfg.deafenedChannelId) then Outcome(records', None)
      else if current == cfg.deafenedChannelId then Outcome(records', None)
      else Outcome(records', Some(cfg.deafenedChannelId))
  }

  /** The undeafen branch: take the member's record out first, then request a
      move back to the recorded channel only if the member is still in the
      deafened channel, the recorded id still resolves to a voice channel,
      and it is not the channel the member is in. */
  function UndeafenStep(cfg: Config, records: map<int, int>, id: int,
                        after: VoiceState, guild: Guild): (o: Outcome)
    ensures id !in o.records
    ensures OthersUnchanged(records, o.records, id)
    ensures id !in records ==> o.move.None?
    ensures o.move.Some? <==> (id in records &&
                               after.channel == Some(cfg.deafenedChannelId) &&
                               IsVoiceChannel(guild, records[id]) &&
                               records[id] != after.channel.value)
    ensures o.move.Some? ==> id in records && o.move.value == records[id]
  {
    var original := if id in records then Some(records[id]) else None;
    var records' := records - {id};
    match original
    case None => Outcome(records', None)
    case Some(originalId) =>
      if after.channel.None? || after.channel.value != cfg.deafenedChannelId then
        Outcome(records', None)
      else if !IsVoiceChannel(guild, originalId) then Outcome(records', None)
      else if after.channel.value == originalId then Outcome(records', None)
      else Outcome(records', Some(originalId))
  }

  /** The update is one the handler drops before looking at it: it is about
      a bot, or it comes from a guild other than the configured one. */
  predicate Ignored(cfg: Config, member: Member)
  {
    member.isBot || member.guildId != cfg.guildId
  }

  /** One voice-state update, as the handler treats it: bots and other
      guilds are ignored, then the deafen or the undeafen branch runs. */
  function Step(cfg: Config, records: map<int, int>, member: Member,
                before: VoiceState, after: VoiceState, guild: Guild): (o: Outcome)
    ensures OthersUnchanged(records, o.records, member.id)
    ensures o.move.Some? ==> !Ignored(cfg, member)
    ensures o.move.Some? ==> after.channel.Some? && after.channel.value != o.move.value &&
                             IsVoiceChannel(guild, o.move.value)
    ensures o.move.Some? ==> o.move.value == cfg.deafenedChannelId ||
                             (member.id in records && o.move.value == records[member.id])
  {
    if Ignored(cfg, member) then Outcome(records, None)
    else if JustDeafened(before, after) then DeafenStep(cfg, records, member.id, after, guild)
    else if JustUndeafened(before, after) then UndeafenStep(cfg, records, member.id, after, guild)
    else Outcome(records, None)
  }

  /** Updates about bots, or from any guild but the configured one, leave the
      records alone and request no move. */
  lemma IgnoredMemberNoOp(cfg: Config, records: map<int, int>, member: Member,
                          before: VoiceState, after: VoiceState, guild: Guild)
    requires Ignored(cfg, member)
    ensures Step(cfg, records, member, before, after, guild) == Outcome(records, None)
  {
  }

  /** An update that leaves the deafen flag as it was changes nothing. */
  lemma UnchangedFlagNoOp(cfg: Config, records: map<int, int>, member: Member,
                          before: VoiceState, after: VoiceState, guild: Guild)
    requires before.selfDeaf == after.selfDeaf
    ensures Step(cfg, records, member, before, after, guild) == Outcome(records, None)
  {
  }

  /** On a deafen by a member in voice, the record becomes the current channel,
      overwriting any earlier one, whatever the deafened channel resolves to;
      a member not in voice changes nothing. */
  lemma DeafenRecordsChannel(cfg: Config, records: map<int, int>, member: Member,
                             before: VoiceState, after: VoiceState, guild: Guild)
    requires !Ignored(cfg, member)
    requires JustDeafened(before, after)
    ensures after.channel.None? ==>
              Step(cfg, records, member, before, after, guild) == Outcome(records, None)
    ensures after.channel.Some? ==>
              Step(cfg, records, member, before, after, guild).records ==
              records[member.id := after.channel.value]
  {
  }

  /** On a deafen, a move is requested exactly when the member is in voice,
      the deafened channel is a voice channel and the member is not already
      in it; the move is to the deafened channel. */
  lemma DeafenMoveIff(cfg: Config, records: map<int, int>, member: Member,
                      before: VoiceState, after: VoiceState, guild: Guild)
    requires !Ignored(cfg, member)
    requires JustDeafened(before, after)
    ensures var o := Step(cfg, records, member, before, after, guild);
            (o.move.Some? <==> (after.channel.Some? &&
                                IsVoiceChannel(guild, cfg.deafenedChannelId) &&
                                after.channel.value != cfg.deafenedChannelId)) &&
            (o.move.Some? ==> o.move == Some(cfg.deafenedChannelId))
  {
  }

  /** Deafening while already in the deafened channel requests no move, and
      the record then names the deafened channel itself. */
  lemma RedeafenInDeafenedChannel(cfg: Config, records: map<int, int>, member: Member,
                                  before: VoiceState, after: VoiceState, guild: Guild)
    requires !Ignored(cfg, member)
    requires JustDeafened(before, after)
    requires after.channel == Some(cfg.deafenedChannelId)
    ensures var o := Step(cfg, records, member, before, after, guild);
            o.move.None? && o.records == records[member.id := cfg.deafenedChannelId]
  {
  }

  /** On an undeafen the member's record is always removed, whatever the
      later checks decide; without a record nothing else happens. */
  lemma UndeafenDropsRecord(cfg: Config, records: map<int, int>, member: Member,
                            before: VoiceState, after: VoiceState, guild: Guild)
    requires !Ignored(cfg, member)
    requires JustUndeafened(before, after)
    ensures Step(cfg, records, member, before, after, guild).records == records - {member.id}
    ensures member.id !in records ==>
              Step(cfg, records, member, before, after, guild) == Outcome(records, None)
  {
  }

  /** On an undeafen, a move back is requested exactly when a record existed,
      the member is in the deafened channel, the recorded id still resolves
      to a voice channel and is not the current channel; the move is to the
      recorded channel. */
  lemma UndeafenMoveIff(cfg: Config, records: map<int, int>, member: Member,
                        before: VoiceState, after: VoiceState, guild: Guild)
    requires !Ignored(cfg, member)
    requires JustUndeafened(before, after)
    ensures var o := Step(cfg, records, member, before, after, guild);
            (o.move.Some? <==> (member.id in records &&
                                after.channel == Some(cfg.deafenedChannelId) &&
                                IsVoiceChannel(guild, records[member.id]) &&
                                records[member.id] != cfg.deafenedChannelId)) &&
            (o.move.Some? ==> o.move == Some(records[member.id]))
  {
  }

  /** A member deafens in voice channel `c` and is moved to the deafened
      channel; on undeafening there, they are moved back to `c` if it still
      resolves to a voice channel and not moved otherwise, and their record
      is gone either way. */
  lemma DeafenUndeafenRoundTrip(cfg: Config, records: map<int, int>, member: Member,
                                before: VoiceState, c: int, guild: Guild, guild': Guild)
    requires !Ignored(cfg, member)
    requires !before.selfDeaf
    requires IsVoiceChannel(guild, cfg.deafenedChannelId) && c != cfg.deafenedChannelId
    ensures var parked := VoiceState(Some(cfg.deafenedChannelId), true);
            var o1 := Step(cfg, records, member, before, VoiceState(Some(c), true), guild);
            var o2 := Step(cfg, o1.records, member, parked,
                           VoiceState(Some(cfg.deafenedChannelId), false), guild');
            o1.move == Some(cfg.deafenedChannelId) &&
            o1.records == records[member.id := c] &&
            o2.records == records - {member.id} &&
            o2.move == (if IsVoiceChannel(guild', c) then Some(c) else None)
  {
  }

  /** The handler's state: the records of where deafened members came from,
      and the two configuration values. */
  class Tracker {
    const guildId: int
    const deafenedChannelId: int
    var previousChannels: map<int, int>

    function Cfg(): Config
    {
      Config(guildId, deafenedChannelId)
    }

    /** The process refuses to start unless both ids are non-zero. */
    constructor (guildId: int, deafenedChannelId: int)
      requires guildId != 0 && deafenedChannelId != 0
      ensures this.guildId == guildId && this.deafenedChannelId == deafenedChannelId
      ensures previousChannels == map[]
    {
      this.guildId := guildId;
      this.deafenedChannelId := deafenedChannelId;
      previousChannels := map[];
    }

    /** Handles one voice-state update and returns the channel a move is
        requested to. Whether that move then succeeds is not fed back into
        the records. */
    method Handle(member: Member, before: VoiceState, after: VoiceState, guild: Guild)
      returns (move: Option<int>)
      modifies this
      ensures var o := Step(Cfg(), old(previousChannels), member, before, after, guild);
              previousChannels == o.records && move == o.move
    {
      move := None;
      if member.isBot {
        return;
      }
      if member.guildId != guildId {
        return;
      }
      var justDeafened := JustDeafened(before, after);
      var justUndeafened := JustUndeafened(before, after);
      if justDeafened {
        if after.channel.None? {
          return;
        }
        previousChannels := previousChannels[member.id := after.channel.value];
        if !IsVoiceChannel(guild, deafenedChannelId) {
          return;
        }
        if after.channel.value == deafenedChannelId {
          return;
        }
        move := Some(deafenedChannelId);
      } else if justUndeafened {
        var original := if member.id in previousChannels then Some(previousChannels[member.id]) else None;
        previousChannels := previousChannels - {member.id};
        if original.None? {
          return;
        }
        if after.channel.None? || after.channel.value != deafenedChannelId {
          return;
        }
        if !IsVoiceChannel(guild, original.value) {
          return;
        }
        if after.channel.value == original.value {
          return;
        }
        move := Some(original.value);
      }
    }
  }

  /** A fresh tracker run through one deafen in voice channel `c` and the
      matching undeafen in the deafened channel: the first update moves the
      member to the deafened channel, the second moves them back to `c`, and
      no record is left. */
  method ParkAndReturn(guildId: int, deafenedChannelId: int, member: Member,
                       c: int, guild: Guild)
    returns (first: Option<int>, second: Option<int>, left: map<int, int>)
    requires guildId != 0 && deafenedChannelId != 0
    requires !Ignored(Config(guildId, deafenedChannelId), member)
    requires IsVoiceChannel(guild, deafenedChannelId) && IsVoiceChannel(guild, c)
    requires c != deafenedChannelId
    ensures first == Some(deafenedChannelId) && second == Some(c) && left == map[]
  {
    var tracker := new Tracker(guildId, deafenedChannelId);
    first := tracker.Handle(member, VoiceState(Some(c), false), VoiceState(Some(c), true), guild);
    assert tracker.previousChannels == map[member.id := c];
    second := tracker.Handle(member, VoiceState(Some(deafenedChannelId), true),
                             VoiceState(Some(deafenedChannelId), false), guild);
    left := tracker.previousChannels;
  }
}
