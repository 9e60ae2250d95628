/** The values the voice-state handler reads: members, voice states, the
    guild's channels, and the two pure classifications it makes of them. */
module VoiceEvents {

  datatype Option<T> = None | Some(value: T)

  /** What a channel id resolves to in a guild: a voice channel or a channel
      of some other kind (text, category, stage, ...). */
  datatype ChannelKind = Voice | Other

  /** The channels a guild can resolve by id; an id that is not a key does
      not resolve at all (the lookup yields nothing). */
  type Guild = map<int, ChannelKind>

  /** The member an update is about: its id, whether it is a bot account,
      and the id of the guild the update comes from. */
  datatype Member = Member(id: int, isBot: bool, guildId: int)

  /** One side of a voice-state update: the channel the member is in, if any,
      and the member's own deafen flag. */
  datatype VoiceState = VoiceState(channel: Option<int>, selfDeaf: bool)

  /** The member has just deafened themselves: the flag flipped, and it is
      set after the update. */
  predicate JustDeafened(before: VoiceState, after: VoiceState)
    ensures JustDeafened(before, after) <==> before.selfDeaf != after.selfDeaf && after.selfDeaf
  {
    !before.selfDeaf && after.selfDeaf
  }

  /** The member has just undeafened themselves: the flag flipped, and it is
      clear after the update; so the two transitions never hold together. */
  predicate JustUndeafened(before: VoiceState, after: VoiceState)
    ensures JustUndeafened(before, after) <==> before.selfDeaf != after.selfDeaf && !after.selfDeaf
    ensures JustUndeafened(before, after) ==> !JustDeafened(before, after)
  {
    before.selfDeaf && !after.selfDeaf
  }

  /** The two transitions are exclusive, neither fires while the flag is
      unchanged, and one of them fires whenever it flips; which one is
      decided by the flag after the update. */
  lemma TransitionCases(before: VoiceState, after: VoiceState)
    ensures !(JustDeafened(before, after) && JustUndeafened(before, after))
    ensures before.selfDeaf == after.selfDeaf ==>
              !JustDeafened(before, after) && !JustUndeafened(before, after)
    ensures before.selfDeaf != after.selfDeaf ==>
              (JustDeafened(before, after) <==> after.selfDeaf) &&
              (JustUndeafened(before, after) <==> !after.selfDeaf)
  {
  }

  /** The id resolves in the guild, and to a voice channel. An id that does
      not resolve (a deleted channel) is never one, and neither is a channel
      of another kind. */
  predicate IsVoiceChannel(guild: Guild, id: int)
    ensures id !in guild ==> !IsVoiceChannel(guild, id)
    ensures id in guild && guild[id] == Other ==> !IsVoiceChannel(guild, id)
    ensures id in guild && guild[id] == Voice ==> IsVoiceChannel(guild, id)
  {
    id in guild && guild[id] == Voice
  }
}
