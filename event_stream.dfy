/** The handler applied to the updates the gateway delivers one after the
    other: each update is handled to completion before the next, so a stream
    of updates is a fold of the single-update step over the records. */
module EventStream {
  import opened VoiceEvents
  import opened DeafenMover

  /** One voice-state update: the member, both voice states, and the
      channels of the member's guild at the time of the update. */
  datatype Update = Update(member: Member, before: VoiceState, after: VoiceState, guild: Guild)

  /** The records after handling every update of `updates`, in order. */
  function Replay(cfg: Config, records: map<int, int>, updates: seq<Update>): (r: map<int, int>)
    ensures forall k :: k !in MemberIds(updates) ==>
              (k in r <==> k in records) && (k in records ==> r[k] == records[k])
    decreases |updates|
  {
    if updates == [] then records
    else
      var u := updates[0];
      Replay(cfg, Step(cfg, records, u.member, u.before, u.after, u.guild).records, updates[1..])
  }

  /** The ids of the members the updates are about. */
  function MemberIds(updates: seq<Update>): set<int>
  {
    set u | u in updates :: u.member.id
  }

  /** The updates the handler does not drop, in their original order. */
  function Relevant(cfg: Config, updates: seq<Update>): (r: seq<Update>)
    ensures forall u :: u in r <==> u in updates && !Ignored(cfg, u.member)
    decreases |updates|
  {
    if updates == [] then []
    else if Ignored(cfg, updates[0].member) then Relevant(cfg, updates[1..])
    else [updates[0]] + Relevant(cfg, updates[1..])
  }

  /** Filtering commutes with concatenation: the kept updates of a stream
      are the kept updates of its first part followed by those of the rest,
      so the filter keeps the order and the number of the updates it keeps. */
  lemma {:induction false} RelevantAppend(cfg: Config, first: seq<Update>, second: seq<Update>)
    ensures Relevant(cfg, first + second) == Relevant(cfg, first) + Relevant(cfg, second)
    decreases |first|
  {
    if first == [] {
      assert first + second == second;
    } else {
      assert (first + second)[0] == first[0] && (first + second)[1..] == first[1..] + second;
      RelevantAppend(cfg, first[1..], second);
    }
  }

  /** Dropping every update about a bot or from another guild, anywhere in
      the stream, leaves the final records as they were. */
  lemma {:induction false} ReplayIgnoresIgnored(cfg: Config, records: map<int, int>,
                                                updates: seq<Update>)
    ensures Replay(cfg, records, updates) == Replay(cfg, records, Relevant(cfg, updates))
    decreases |updates|
  {
    if updates != [] {
      var u := updates[0];
      var o := Step(cfg, records, u.member, u.before, u.after, u.guild);
      if Ignored(cfg, u.member) {
        IgnoredMemberNoOp(cfg, records, u.member, u.before, u.after, u.guild);
        ReplayIgnoresIgnored(cfg, records, updates[1..]);
      } else {
        var rest := Relevant(cfg, updates[1..]);
        assert ([u] + rest)[0] == u && ([u] + rest)[1..] == rest;
        ReplayIgnoresIgnored(cfg, o.records, updates[1..]);
      }
    }
  }

  /** How delivery composes, not a property of the handler: the fold gives
      the same records whether the gateway's updates are taken as one stream
      or as two consecutive parts, the second starting from the records the
      first leaves. */
  lemma {:induction false} ReplayAppend(cfg: Config, records: map<int, int>,
                                        first: seq<Update>, second: seq<Update>)
    ensures Replay(cfg, records, first + second) ==
            Replay(cfg, Replay(cfg, records, first), second)
    decreases |first|
  {
    if first != [] {
      var u := first[0];
      var o := Step(cfg, records, u.member, u.before, u.after, u.guild);
      assert (first + second)[0] == u && (first + second)[1..] == first[1..] + second;
      ReplayAppend(cfg, o.records, first[1..], second);
    } else {
      assert first + second == second;
    }
  }

  /** Records are only ever created by the deafen branch: a key of the final
      records that was not there at the start is the id of a member that some
      update not ignored by the handler deafened while in a voice channel. */
  lemma {:induction false} ReplayKeysFromDeafens(cfg: Config, records: map<int, int>,
                                                 updates: seq<Update>, k: int)
    requires k in Replay(cfg, records, updates)
    requires k !in records
    ensures exists i :: 0 <= i < |updates| && updates[i].member.id == k &&
              !Ignored(cfg, updates[i].member) &&
              JustDeafened(updates[i].before, updates[i].after) &&
              updates[i].after.channel.Some?
    decreases |updates|
  {
    var u := updates[0];
    var o := Step(cfg, records, u.member, u.before, u.after, u.guild);
    if k in o.records {
      assert u.member.id == k && !Ignored(cfg, u.member);
      assert JustDeafened(u.before, u.after) && u.after.channel.Some?;
    } else {
      ReplayKeysFromDeafens(cfg, o.records, updates[1..], k);
      var i :| 0 <= i < |updates| - 1 && updates[1..][i].member.id == k &&
               !Ignored(cfg, updates[1..][i].member) &&
               JustDeafened(updates[1..][i].before, updates[1..][i].after) &&
               updates[1..][i].after.channel.Some?;
      assert updates[i + 1] == updates[1..][i];
    }
  }
}
