/**
 * The bot's per-guild key-value store: guild configurations, economy
 * accounts, level progress and warning lists, each an in-memory document
 * loaded once from its JSON file and written back after every change, plus
 * the cooldowns file that commands read and write directly.
 *
 * Every document is a field of `JsonStorage`; each `...File` field is what
 * the document's file holds, so the contracts say when a call writes through
 * and when it only changes memory. The four document files are ghost; the
 * cooldowns file is an ordinary field, since commands read it directly.
 */
module Storage {
  import opened Js

  /** A guild configuration is a JavaScript object: top-level sections
      (`prefix`, `welcome`, `log`, ...) and whatever else was merged in. */
  type Config = Object

  datatype Account = Account(wallet: int, bank: int, inventory: seq<Json>)

  datatype Progress = Progress(xp: int, level: int, totalXp: int)

  /** A warning is the caller's object with `id` and `timestamp` added. */
  type Warning = Object

  /** Two-level documents: guild id, then user id. */
  type PerUser<V> = map<string, map<string, V>>

  /** What reading a JSON file yields. */
  datatype FileState<T> = Missing | Unreadable | Parsed(content: T)

  /** `loadJSON`: the parsed file, or the default when the file is missing,
      cannot be read or does not parse. */
  function LoadJson<T>(file: FileState<T>, default: T): (r: T)
    ensures file.Parsed? ==> r == file.content
    ensures !file.Parsed? ==> r == default
  {
    if file.Parsed? then file.content else default
  }

  const DefaultWelcomeMessage := "Benvenuto {user}!"

  /** The configuration `getGuildConfig` installs for an unknown guild. */
  const DefaultConfig: Config := map[
    "prefix" := JStr("!"),
    "welcome" := JObj(map["enabled" := JBool(false), "channelId" := JNull,
                          "message" := JStr(DefaultWelcomeMessage)]),
    "log" := JObj(map["enabled" := JBool(false), "channelId" := JNull]),
    "tickets" := JObj(map["enabled" := JBool(false), "categoryId" := JNull,
                          "supportRoleId" := JNull]),
    "levels" := JObj(map["enabled" := JBool(false), "announceChannelId" := JNull,
                         "xpMin" := JInt(15), "xpMax" := JInt(25)]),
    "economy" := JObj(map["enabled" := JBool(true), "currency" := JStr("\U{1FA99}")]),
    "autoroles" := JArr([])
  ]

  const DefaultAccount := Account(0, 0, [])

  const DefaultProgress := Progress(0, 0, 0)

  /** `economy.wallet += amount`: the bank and the inventory are untouched. */
  function Credit(a: Account, amount: int): (r: Account)
    ensures r.wallet == a.wallet + amount
    ensures r.bank == a.bank && r.inventory == a.inventory
    ensures r.wallet + r.bank == a.wallet + a.bank + amount
  {
    a.(wallet := a.wallet + amount)
  }

  // ---------------------------------------------------------------------
  // Guild configurations
  // ---------------------------------------------------------------------

  /** The configuration `getGuildConfig` returns. */
  function ConfigOrDefault(configs: map<string, Config>, guildId: string): (c: Config)
    ensures guildId in configs ==> c == configs[guildId]
    ensures guildId !in configs ==> c == DefaultConfig
  {
    if guildId in configs then configs[guildId] else DefaultConfig
  }

  /** The configurations after `getGuildConfig(guildId)`. */
  function WithConfig(configs: map<string, Config>, guildId: string): (r: map<string, Config>)
    ensures r.Keys == configs.Keys + {guildId}
    ensures r[guildId] == ConfigOrDefault(configs, guildId)
    ensures forall h :: h in configs ==> r[h] == configs[h]
  {
    configs[guildId := ConfigOrDefault(configs, guildId)]
  }

  /** `{ ...base, ...data }`: top-level keys of `data` win, nested objects
      are replaced whole. */
  function ShallowMerge(base: Object, data: Object): (r: Object)
    ensures r.Keys == base.Keys + data.Keys
    ensures forall k :: k in data ==> r[k] == data[k]
    ensures forall k :: k in base && k !in data ==> r[k] == base[k]
  {
    base + data
  }

  /** `config[key] = { ...config[key], ...value }`: one section merged one
      level deep, every other section untouched. */
  function MergeSection(config: Config, key: string, value: Object): (r: Config)
    ensures r.Keys == config.Keys + {key}
    ensures r[key] == JObj(ShallowMerge(Spread(Get(config, key)), value))
    ensures forall k :: k in config && k != key ==> r[k] == config[k]
  {
    config[key := JObj(ShallowMerge(Spread(Get(config, key)), value))]
  }

  lemma {:induction false} GetOrCreateIdempotent(configs: map<string, Config>, guildId: string)
    ensures WithConfig(WithConfig(configs, guildId), guildId) == WithConfig(configs, guildId)
    ensures ConfigOrDefault(WithConfig(configs, guildId), guildId) == ConfigOrDefault(configs, guildId)
  {
  }

  lemma {:induction false} MergeSectionIsolation(config: Config, key: string, value: Object, other: string)
    requires other != key
    ensures other in MergeSection(config, key, value) <==> other in config
    ensures other in config ==> MergeSection(config, key, value)[other] == config[other]
  {
  }

  /** Merging a configuration into itself changes nothing: `setGuildConfig`
      with the very object `getGuildConfig` returned stores that object. */
  lemma {:induction false} SelfMergeIsIdentity(config: Config)
    ensures ShallowMerge(config, config) == config
  {
  }

  // ---------------------------------------------------------------------
  // Per-user documents
  // ---------------------------------------------------------------------

  function Lookup2<V>(m: PerUser<V>, guildId: string, userId: string): (r: Option<V>)
    ensures r.Some? <==> guildId in m && userId in m[guildId]
    ensures r.Some? ==> r.value == m[guildId][userId]
  {
    if guildId in m && userId in m[guildId] then Some(m[guildId][userId]) else None
  }

  /** `m[guildId] ??= {}; m[guildId][userId] = v`. */
  function Put2<V>(m: PerUser<V>, guildId: string, userId: string, v: V): (r: PerUser<V>)
    ensures Lookup2(r, guildId, userId) == Some(v)
    ensures r.Keys == m.Keys + {guildId}
    ensures forall h :: h in m && h != guildId ==> r[h] == m[h]
    ensures forall u :: u != userId ==> Lookup2(r, guildId, u) == Lookup2(m, guildId, u)
  {
    var inner := if guildId in m then m[guildId] else map[];
    m[guildId := inner[userId := v]]
  }

  /** The record a get-or-create accessor returns. */
  function ValueOr<V>(m: PerUser<V>, guildId: string, userId: string, default: V): (r: V)
    ensures Lookup2(m, guildId, userId).Some? ==> r == m[guildId][userId]
    ensures Lookup2(m, guildId, userId).None? ==> r == default
  {
    if guildId in m && userId in m[guildId] then m[guildId][userId] else default
  }

  /** The document after a get-or-create accessor: the default is installed
      only when the user has no record, and an existing one stays as it is. */
  function WithEntry<V>(m: PerUser<V>, guildId: string, userId: string, default: V): (r: PerUser<V>)
    ensures Lookup2(m, guildId, userId).Some? ==> r == m
    ensures Lookup2(r, guildId, userId) == Some(ValueOr(m, guildId, userId, default))
    ensures Lookup2(m, guildId, userId).None? ==> r == Put2(m, guildId, userId, default)
    ensures forall h, u :: h != guildId || u != userId ==> Lookup2(r, h, u) == Lookup2(m, h, u)
  {
    if guildId in m && userId in m[guildId] then m else Put2(m, guildId, userId, default)
  }

  /** Storing a record and reading it back gives exactly that record, and
      every other user's record reads as before. */
  lemma {:induction false} PutThenGet<V>(m: PerUser<V>, guildId: string, userId: string, v: V, d: V)
    ensures ValueOr(Put2(m, guildId, userId, v), guildId, userId, d) == v
    ensures WithEntry(Put2(m, guildId, userId, v), guildId, userId, d) == Put2(m, guildId, userId, v)
    ensures forall h, u :: h != guildId || u != userId ==>
      Lookup2(Put2(m, guildId, userId, v), h, u) == Lookup2(m, h, u)
  {
    forall h, u | h != guildId || u != userId
      ensures Lookup2(Put2(m, guildId, userId, v), h, u) == Lookup2(m, h, u)
    {
      if h == guildId {
        assert u != userId;
      }
    }
  }

  /** A get-or-create followed by a store leaves the same document as the
      store alone. */
  lemma {:induction false} PutOverEntry<V>(m: PerUser<V>, guildId: string, userId: string, d: V, v: V)
    ensures Put2(WithEntry(m, guildId, userId, d), guildId, userId, v) == Put2(m, guildId, userId, v)
  {
    var inner := if guildId in m then m[guildId] else map[];
    if !(guildId in m && userId in m[guildId]) {
      assert inner[userId := d][userId := v] == inner[userId := v];
    }
  }

  /** `stamps[key] || 0`: the last use recorded under a key, 0 when none. */
  function LastStamp(stamps: map<string, int>, key: string): (t: int)
    ensures key in stamps ==> t == stamps[key]
    ensures key !in stamps ==> t == 0
  {
    if key in stamps then stamps[key] else 0
  }

  // ---------------------------------------------------------------------
  // Warnings
  // ---------------------------------------------------------------------

  /** `w.id === warnId` for a numeric id. */
  predicate HasId(w: Warning, id: int)
  {
    "id" in w && w["id"] == JInt(id)
  }

  /** `{ ...warn, id: now, timestamp: iso }`. */
  function Stamp(warn: Object, now: int, iso: string): (w: Warning)
    ensures HasId(w, now)
    ensures "timestamp" in w && w["timestamp"] == JStr(iso)
    ensures w.Keys == warn.Keys + {"id", "timestamp"}
    ensures forall k :: k in warn && k != "id" && k != "timestamp" ==> w[k] == warn[k]
  {
    warn["id" := JInt(now)]["timestamp" := JStr(iso)]
  }

  /** The list left after `splice`-ing out the first warning with the id. */
  function RemoveFirst(ws: seq<Warning>, id: int): (r: seq<Warning>)
    ensures (exists i :: 0 <= i < |ws| && HasId(ws[i], id)) ==> |r| == |ws| - 1
    ensures (forall i :: 0 <= i < |ws| ==> !HasId(ws[i], id)) ==> r == ws
  {
    if ws == [] then []
    else if HasId(ws[0], id) then ws[1..]
    else [ws[0]] + RemoveFirst(ws[1..], id)
  }

  /** The first warning with the id is the one removed; the others keep
      their order. */
  lemma {:induction false} RemoveFirstAt(ws: seq<Warning>, id: int, i: int)
    requires 0 <= i < |ws| && HasId(ws[i], id)
    requires forall j :: 0 <= j < i ==> !HasId(ws[j], id)
    ensures RemoveFirst(ws, id) == ws[..i] + ws[i + 1..]
  {
    if i > 0 {
      RemoveFirstAt(ws[1..], id, i - 1);
      assert ws[1..][..i - 1] == ws[1..i];
      assert ws[1..][i..] == ws[i + 1..];
      assert ws[..i] == [ws[0]] + ws[1..i];
    }
  }

  /** Adding a warning and removing it by the id it was given restores the
      list, provided no earlier warning carries the same timestamp id. */
  lemma {:induction false} AddThenRemove(ws: seq<Warning>, warn: Object, now: int, iso: string)
    requires forall j :: 0 <= j < |ws| ==> !HasId(ws[j], now)
    ensures RemoveFirst(ws + [Stamp(warn, now, iso)], now) == ws
  {
    var added := ws + [Stamp(warn, now, iso)];
    RemoveFirstAt(added, now, |ws|);
    assert added[..|ws|] == ws;
  }

  /** `warns.findIndex(w => w.id === warnId)`. */
  method FindWarnIndex(ws: seq<Warning>, id: int) returns (index: int)
    ensures -1 <= index < |ws|
    ensures index == -1 <==> forall j :: 0 <= j < |ws| ==> !HasId(ws[j], id)
    ensures index >= 0 ==> HasId(ws[index], id)
    ensures index >= 0 ==> forall j :: 0 <= j < index ==> !HasId(ws[j], id)
  {
    var i := 0;
    while i < |ws|
      invariant 0 <= i <= |ws|
      invariant forall j :: 0 <= j < i ==> !HasId(ws[j], id)
    {
      if HasId(ws[i], id) {
        return i;
      }
      i := i + 1;
    }
    return -1;
  }

  // ---------------------------------------------------------------------
  // The store
  // ---------------------------------------------------------------------

  class JsonStorage {
    var guildConfigs: map<string, Config>
    var economyData: PerUser<Account>
    var levelsData: PerUser<Progress>
    var warnsData: PerUser<seq<Warning>>
    /** cooldowns.json: not cached, commands load and save it themselves. */
    var cooldownsFile: FileState<map<string, int>>

    ghost var guildsFile: FileState<map<string, Config>>
    ghost var economyFile: FileState<PerUser<Account>>
    ghost var levelsFile: FileState<PerUser<Progress>>
    ghost var warnsFile: FileState<PerUser<seq<Warning>>>

    /** Module initialisation: each document is loaded once, falling back to
        an empty document. */
    constructor (guilds: FileState<map<string, Config>>, economy: FileState<PerUser<Account>>,
                 levels: FileState<PerUser<Progress>>, warns: FileState<PerUser<seq<Warning>>>,
                 cooldowns: FileState<map<string, int>>)
      ensures guildConfigs == LoadJson(guilds, map[])
      ensures economyData == LoadJson(economy, map[])
      ensures levelsData == LoadJson(levels, map[])
      ensures warnsData == LoadJson(warns, map[])
      ensures cooldownsFile == cooldowns
      ensures guildsFile == guilds && economyFile == economy
      ensures levelsFile == levels && warnsFile == warns
    {
      guildConfigs := LoadJson(guilds, map[]);
      economyData := LoadJson(economy, map[]);
      levelsData := LoadJson(levels, map[]);
      warnsData := LoadJson(warns, map[]);
      cooldownsFile := cooldowns;
      guildsFile, economyFile, levelsFile, warnsFile := guilds, economy, levels, warns;
    }

    /** getGuildConfig: installs and saves the default for an unknown guild. */
    method GetGuildConfig(guildId: string) returns (config: Config)
      modifies this`guildConfigs, this`guildsFile
      ensures guildConfigs == WithConfig(old(guildConfigs), guildId)
      ensures config == guildConfigs[guildId] == ConfigOrDefault(old(guildConfigs), guildId)
      ensures guildId in old(guildConfigs) ==> guildConfigs == old(guildConfigs) && guildsFile == old(guildsFile)
      ensures guildId !in old(guildConfigs) ==> config == DefaultConfig && guildsFile == Parsed(guildConfigs)
    {
      if guildId !in guildConfigs {
        guildConfigs := guildConfigs[guildId := DefaultConfig];
        guildsFile := Parsed(guildConfigs);
      }
      config := guildConfigs[guildId];
    }

    /** setGuildConfig: shallow merge into the stored configuration (none
        for an unknown guild, so no defaults are added), then save. */
    method SetGuildConfig(guildId: string, data: Object) returns (config: Config)
      modifies this`guildConfigs, this`guildsFile
      ensures config == ShallowMerge(EntryOrEmpty(old(guildConfigs), guildId), data)
      ensures guildConfigs == old(guildConfigs)[guildId := config]
      ensures guildsFile == Parsed(guildConfigs)
    {
      config := ShallowMerge(EntryOrEmpty(guildConfigs, guildId), data);
      guildConfigs := guildConfigs[guildId := config];
      guildsFile := Parsed(guildConfigs);
    }

    /** updateGuildConfig: one section merged one level deep, starting from
        the default for an unknown guild, then save. */
    method UpdateGuildConfig(guildId: string, key: string, value: Object) returns (config: Config)
      modifies this`guildConfigs, this`guildsFile
      ensures config == MergeSection(ConfigOrDefault(old(guildConfigs), guildId), key, value)
      ensures guildConfigs == old(guildConfigs)[guildId := config]
      ensures guildsFile == Parsed(guildConfigs)
    {
      var current := GetGuildConfig(guildId);
      config := MergeSection(current, key, value);
      guildConfigs := guildConfigs[guildId := config];
      guildsFile := Parsed(guildConfigs);
    }

    /** getEconomy: creates the empty account in memory only. */
    method GetEconomy(guildId: string, userId: string) returns (account: Account)
      modifies this`economyData
      ensures account == ValueOr(old(economyData), guildId, userId, DefaultAccount)
      ensures economyData == WithEntry(old(economyData), guildId, userId, DefaultAccount)
    {
      economyData := WithEntry(economyData, guildId, userId, DefaultAccount);
      account := economyData[guildId][userId];
    }

    /** setEconomy: full replace, then save. */
    method SetEconomy(guildId: string, userId: string, data: Account) returns (account: Account)
      modifies this`economyData, this`economyFile
      ensures account == data
      ensures economyData == Put2(old(economyData), guildId, userId, data)
      ensures economyFile == Parsed(economyData)
    {
      economyData := Put2(economyData, guildId, userId, data);
      economyFile := Parsed(economyData);
      account := data;
    }

    /** getLevels: creates the zero record in memory only. */
    method GetLevels(guildId: string, userId: string) returns (progress: Progress)
      modifies this`levelsData
      ensures progress == ValueOr(old(levelsData), guildId, userId, DefaultProgress)
      ensures levelsData == WithEntry(old(levelsData), guildId, userId, DefaultProgress)
    {
      levelsData := WithEntry(levelsData, guildId, userId, DefaultProgress);
      progress := levelsData[guildId][userId];
    }

    /** setLevels: full replace, then save. */
    method SetLevels(guildId: string, userId: string, data: Progress) returns (progress: Progress)
      modifies this`levelsData, this`levelsFile
      ensures progress == data
      ensures levelsData == Put2(old(levelsData), guildId, userId, data)
      ensures levelsFile == Parsed(levelsData)
    {
      levelsData := Put2(levelsData, guildId, userId, data);
      levelsFile := Parsed(levelsData);
      progress := data;
    }

    /** getWarns: creates the empty list in memory only. */
    method GetWarns(guildId: string, userId: string) returns (warns: seq<Warning>)
      modifies this`warnsData
      ensures warns == ValueOr(old(warnsData), guildId, userId, [])
      ensures warnsData == WithEntry(old(warnsData), guildId, userId, [])
    {
      warnsData := WithEntry(warnsData, guildId, userId, []);
      warns := warnsData[guildId][userId];
    }

    /** addWarn: appends the stamped warning, then save. */
    method AddWarn(guildId: string, userId: string, warn: Object, now: int, iso: string)
      returns (warns: seq<Warning>)
      modifies this`warnsData, this`warnsFile
      ensures warns == ValueOr(old(warnsData), guildId, userId, []) + [Stamp(warn, now, iso)]
      ensures warnsData == Put2(old(warnsData), guildId, userId, warns)
      ensures warnsFile == Parsed(warnsData)
    {
      var current := GetWarns(guildId, userId);
      warns := current + [Stamp(warn, now, iso)];
      PutOverEntry(old(warnsData), guildId, userId, [], warns);
      warnsData := Put2(warnsData, guildId, userId, warns);
      warnsFile := Parsed(warnsData);
    }

    /** removeWarn: splices out the first warning with the id and saves; when
        there is none, only the empty list getWarns created is left behind. */
    method RemoveWarn(guildId: string, userId: string, warnId: int) returns (removed: bool)
      modifies this`warnsData, this`warnsFile
      ensures var before := ValueOr(old(warnsData), guildId, userId, []);
        removed <==> exists j :: 0 <= j < |before| && HasId(before[j], warnId)
      ensures var before := ValueOr(old(warnsData), guildId, userId, []);
        removed ==> warnsData == Put2(old(warnsData), guildId, userId, RemoveFirst(before, warnId))
                    && warnsFile == Parsed(warnsData)
      ensures !removed ==> warnsData == WithEntry(old(warnsData), guildId, userId, [])
                           && warnsFile == old(warnsFile)
    {
      var warns := GetWarns(guildId, userId);
      var index := FindWarnIndex(warns, warnId);
      if index != -1 {
        RemoveFirstAt(warns, warnId, index);
        warnsData := Put2(warnsData, guildId, userId, warns[..index] + warns[index + 1..]);
        warnsFile := Parsed(warnsData);
        removed := true;
      } else {
        removed := false;
      }
    }

    /** clearWarns: always empties the list and saves. */
    method ClearWarns(guildId: string, userId: string) returns (cleared: bool)
      modifies this`warnsData, this`warnsFile
      ensures cleared
      ensures warnsData == Put2(old(warnsData), guildId, userId, [])
      ensures warnsFile == Parsed(warnsData)
    {
      warnsData := Put2(warnsData, guildId, userId, []);
      warnsFile := Parsed(warnsData);
      cleared := true;
    }

    /** loadJSON('cooldowns.json'). */
    method LoadCooldowns() returns (cooldowns: map<string, int>)
      ensures cooldownsFile.Parsed? ==> cooldowns == cooldownsFile.content
      ensures !cooldownsFile.Parsed? ==> cooldowns == map[]
    {
      cooldowns := LoadJson(cooldownsFile, map[]);
    }

    /** saveJSON('cooldowns.json', cooldowns). */
    method SaveCooldowns(cooldowns: map<string, int>)
      modifies this`cooldownsFile
      ensures cooldownsFile == Parsed(cooldowns)
    {
      cooldownsFile := Parsed(cooldowns);
    }
  }
}
