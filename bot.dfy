/**
 * Bot.cs: the registry of running bots, one per guild and bot type, and the voice-channel
 * state every bot keeps.
 *
 * The registry's runtime `Type` key is the enumeration `BotKind`. Guild voice states come
 * from Discord's cache: a lookup is the parameter `found`, what the cache holds for the bot's
 * own user. Closing the voice connection and telling Discord to leave are not modelled.
 */
module Bots {
  import opened Wrappers

  /** The runtime type a bot is registered under: `Bot` itself or `MusicBot`. */
  datatype BotKind = PlainBot | Music

  /** A voice state: the guild and, when connected, the channel. */
  datatype VoiceState = VoiceState(guildId: nat, channelId: Option<nat>)

  /** An open voice connection, identified by the channel it joined. */
  datatype VoiceClient = VoiceClient(channelId: nat)

  // ---------------------------------------------------------------- the registry as a value

  type Registry<B> = map<nat, map<BotKind, B>>

  /** No guild is kept with an empty inner map: `Delete` prunes them. */
  predicate Pruned<B>(all: Registry<B>) {
    forall g :: g in all ==> all[g] != map[]
  }

  /** `GetBot`: the bot registered under the guild and kind, if any. */
  function Lookup<B>(all: Registry<B>, guildId: nat, kind: BotKind): (r: Option<B>)
    ensures r.Some? <==> guildId in all && kind in all[guildId]
  {
    if guildId in all && kind in all[guildId] then Some(all[guildId][kind]) else None
  }

  /** `GetOrAdd` of the guild's map, then `TryAdd` of the kind: refused when the pair is taken. */
  function Added<B>(all: Registry<B>, guildId: nat, kind: BotKind, bot: B): (r: Option<Registry<B>>)
    ensures r.None? <==> Lookup(all, guildId, kind).Some?
    ensures r.Some? ==> Lookup(r.value, guildId, kind) == Some(bot)
    ensures r.Some? ==> forall g: nat, k: BotKind :: (g, k) != (guildId, kind) ==> Lookup(r.value, g, k) == Lookup(all, g, k)
  {
    var inner := if guildId in all then all[guildId] else map[];
    if kind in inner then None else Some(all[guildId := inner[kind := bot]])
  }

  /** `Delete`: drops the kind's entry in the guild, and the guild when nothing else is left in it. */
  function Removed<B>(all: Registry<B>, guildId: nat, kind: BotKind): (r: Registry<B>)
    ensures Lookup(r, guildId, kind) == None
    ensures forall g: nat, k: BotKind :: (g, k) != (guildId, kind) ==> Lookup(r, g, k) == Lookup(all, g, k)
    ensures guildId in r ==> guildId in all && r[guildId] == all[guildId] - {kind}
  {
    if guildId !in all then all
    else
      var inner := all[guildId] - {kind};
      assert forall k: BotKind :: k != kind && k in all[guildId] ==> k in inner;
      if inner == map[] then all - {guildId} else all[guildId := inner]
  }

  /** Registering and deleting keep the registry free of empty guild maps. */
  lemma PrunedKept<B>(all: Registry<B>, guildId: nat, kind: BotKind, bot: B)
    requires Pruned(all)
    ensures Added(all, guildId, kind, bot).Some? ==> Pruned(Added(all, guildId, kind, bot).value)
    ensures Pruned(Removed(all, guildId, kind))
  {
  }

  /** Once a bot is deleted, a bot of the same kind can be created for that guild again. */
  lemma AddAfterRemove<B>(all: Registry<B>, guildId: nat, kind: BotKind, bot: B)
    ensures Added(Removed(all, guildId, kind), guildId, kind, bot).Some?
  {
  }

  /** A second kind in the same guild is accepted beside the first. */
  lemma OtherKindAccepted<B>(all: Registry<B>, guildId: nat, kind: BotKind, other: BotKind, bot: B, second: B)
    requires kind != other
    requires Added(all, guildId, kind, bot).Some?
    ensures Lookup(all, guildId, other).None? ==> Added(Added(all, guildId, kind, bot).value, guildId, other, second).Some?
  {
  }

  /** Deleting the last kind of a guild removes the guild key. */
  lemma RemoveLastPrunes<B>(all: Registry<B>, guildId: nat, kind: BotKind)
    requires guildId in all && all[guildId].Keys == {kind}
    ensures guildId !in Removed(all, guildId, kind)
  {
    assert all[guildId] - {kind} == map[];
  }

  // ---------------------------------------------------------------- the registry object

  /** `Bot.AllBots`, the static dictionary guild -> (type -> bot). */
  class BotRegistry<B> {
    var allBots: Registry<B>

    constructor()
      ensures allBots == map[]
    {
      allBots := map[];
    }

    /** The registration the `Bot` constructor performs; `false` where it throws. */
    method Register(guildId: nat, kind: BotKind, bot: B) returns (added: bool)
      modifies this
      ensures added <==> Lookup(old(allBots), guildId, kind).None?
      ensures added ==> Some(allBots) == Added(old(allBots), guildId, kind, bot)
      ensures !added ==> allBots == old(allBots)
    {
      var botsByType := if guildId in allBots then allBots[guildId] else map[];
      if kind in botsByType {
        return false;
      }
      allBots := allBots[guildId := botsByType[kind := bot]];
      added := true;
    }

    method Delete(guildId: nat, kind: BotKind)
      modifies this
      ensures allBots == Removed(old(allBots), guildId, kind)
    {
      if guildId in allBots {
        var botsByType := allBots[guildId] - {kind};
        if botsByType == map[] {
          allBots := allBots - {guildId};
        } else {
          allBots := allBots[guildId := botsByType];
        }
      }
    }

    function GetBot(guildId: nat, kind: BotKind): (r: Option<B>)
      reads this
      ensures r.Some? <==> guildId in allBots && kind in allBots[guildId]
      ensures r.Some? ==> r.value == allBots[guildId][kind]
    {
      Lookup(allBots, guildId, kind)
    }
  }

  // ---------------------------------------------------------------- a bot's voice state

  /** The fields of `Bot` the engine updates: its voice connection and voice state. */
  class Bot {
    const guildId: nat
    const kind: BotKind
    var voiceClient: Option<VoiceClient>
    var voiceState: Option<VoiceState>

    constructor(guildId: nat, kind: BotKind)
      ensures this.guildId == guildId && this.kind == kind
      ensures voiceClient == None && voiceState == None
    {
      this.guildId := guildId;
      this.kind := kind;
      voiceClient := None;
      voiceState := None;
    }

    /** `GetVoiceState`: the cached state; only when there is none is the guild's cache asked. */
    method GetVoiceState(found: Option<VoiceState>) returns (r: Option<VoiceState>)
      modifies this
      ensures old(voiceState).Some? ==> r == old(voiceState) && voiceState == old(voiceState)
      ensures old(voiceState).None? ==> r == found && voiceState == found
      ensures voiceClient == old(voiceClient)
    {
      if voiceState == None {
        voiceState := found;
      }
      r := voiceState;
    }

    /**
     * `LeaveVoiceChannelAsync`: with no voice state cached and none found, nothing happens;
     * otherwise the connection is closed and both the voice state and the client are cleared.
     */
    method LeaveVoiceChannel(found: Option<VoiceState>)
      modifies this
      ensures old(voiceState).None? && found.None? ==> voiceState == None && voiceClient == old(voiceClient)
      ensures old(voiceState).Some? || found.Some? ==> voiceState == None && voiceClient == None
    {
      if voiceState == None {
        if found.Some? {
          voiceState := found;
        } else {
          return;
        }
      }
      voiceState := None;
      voiceClient := None;
    }
  }
}
