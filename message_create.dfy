/**
 * XP for chat messages: at most one rewarded message per user and guild
 * every 60 seconds, a random gain between the guild's bounds, and a
 * single-step level-up when the progress reaches the current level's
 * threshold.
 */
module MessageXp {
  import opened Js
  import opened Storage
  import opened Client

  const XpCooldownMs := 60000
  const DefaultXpMin := 15
  const DefaultXpMax := 25

  /** The parts of an incoming message the handler looks at; `guildId` is
      `None` for a direct message. */
  datatype Message = Message(authorIsBot: bool, guildId: Option<string>, authorId: string)

  datatype XpOutcome =
    | Ignored
    | LevelsDisabled
    | CoolingDown
    | Awarded(gain: int, leveledUp: bool, progress: Progress)

  function XpKey(guildId: string, userId: string): string
  {
    "xp_" + guildId + "_" + userId
  }

  /** `config.levels?.enabled`. */
  predicate LevelsEnabled(config: Config)
  {
    Truthy(Prop(Get(config, "levels"), "enabled"))
  }

  /** `config.levels.xpMin || 15` (and the same for xpMax): a stored number
      when it is non-zero, else the default. */
  function XpBound(v: Option<Json>, default: int): (r: int)
    ensures Truthy(v) && v.value.JInt? ==> r == v.value.n
    ensures !Truthy(v) ==> r == default
  {
    if Truthy(v) && v.value.JInt? then v.value.n else default
  }

  function XpMin(config: Config): int
  {
    XpBound(Prop(Get(config, "levels"), "xpMin"), DefaultXpMin)
  }

  function XpMax(config: Config): int
  {
    XpBound(Prop(Get(config, "levels"), "xpMax"), DefaultXpMax)
  }

  /** `Math.floor(Math.random() * (xpMax - xpMin + 1)) + xpMin`. With the
      bounds in order the gain lies between them; with them reversed it lies
      in `(xpMax, xpMin]`. */
  function XpGain(xpMin: int, xpMax: int, rand: real): (gain: int)
    requires 0.0 <= rand < 1.0
    ensures xpMin <= xpMax ==> xpMin <= gain <= xpMax
    ensures xpMin > xpMax ==> xpMax < gain <= xpMin
  {
    RandomBelow(rand, xpMax - xpMin + 1) + xpMin
  }

  /** XP needed to go from `level` to `level + 1`. */
  function Threshold(level: int): int
  {
    100 * (level + 1)
  }

  /** Add the gain to `xp` and `totalXp`, then level up at most once: the
      level rises by one exactly when the new xp reaches the threshold, never
      by more; the threshold is subtracted rather than xp reset; and a
      non-negative gain keeps xp non-negative and totalXp non-decreasing. */
  function AwardXp(p: Progress, gain: int): (r: Progress)
    ensures r.level == p.level + 1 <==> p.xp + gain >= Threshold(p.level)
    ensures r.level == p.level || r.level == p.level + 1
    ensures r.totalXp == p.totalXp + gain
    ensures r.xp + (r.level - p.level) * Threshold(p.level) == p.xp + gain
    ensures gain >= 0 && p.xp >= 0 ==> r.xp >= 0
    ensures gain >= 0 ==> r.totalXp >= p.totalXp
  {
    var xp := p.xp + gain;
    if xp >= Threshold(p.level) then Progress(xp - Threshold(p.level), p.level + 1, p.totalXp + gain)
    else Progress(xp, p.level, p.totalXp + gain)
  }

  /** XP spent on reaching `level` from level 0. */
  function LevelCost(level: nat): nat
  {
    if level == 0 then 0 else LevelCost(level - 1) + 100 * level
  }

  /** totalXp counts every XP ever gained: what the levels reached cost plus
      the progress within the current level. */
  predicate Consistent(p: Progress)
  {
    p.level >= 0 && p.totalXp == LevelCost(p.level) + p.xp
  }

  lemma {:induction false} AwardKeepsConsistent(p: Progress, gain: int)
    requires Consistent(p)
    ensures Consistent(AwardXp(p, gain))
  {
    var r := AwardXp(p, gain);
    if r.level == p.level + 1 {
      assert LevelCost(r.level) == LevelCost(p.level) + Threshold(p.level);
    }
  }

  /** A progress below its threshold stays below it after any gain of at
      most 100, the most `/config levels` allows per message: the single-step
      rule never leaves a pending level-up behind. */
  lemma {:induction false} SmallGainStaysBelowThreshold(p: Progress, gain: int)
    requires p.level >= 0 && 0 <= p.xp < Threshold(p.level)
    requires 0 <= gain <= 100
    ensures var r := AwardXp(p, gain); r.level >= 0 && 0 <= r.xp < Threshold(r.level)
  {
  }

  /** One message overshooting several thresholds still gains one level. */
  lemma SingleStepExamples()
    ensures AwardXp(Progress(95, 0, 95), 10) == Progress(5, 1, 105)
    ensures AwardXp(Progress(0, 0, 0), 250) == Progress(150, 1, 250)
  {
  }

  /** The MessageCreate handler's XP path. */
  method OnMessage(st: JsonStorage, client: BotClient, msg: Message, now: int, rand: real)
    returns (outcome: XpOutcome)
    requires 0.0 <= rand < 1.0
    modifies st`guildConfigs, st`guildsFile, st`levelsData, st`levelsFile, client`xpCooldowns
    ensures msg.authorIsBot || msg.guildId.None? ==>
      outcome == Ignored
      && st.guildConfigs == old(st.guildConfigs) && st.guildsFile == old(st.guildsFile)
      && st.levelsData == old(st.levelsData) && st.levelsFile == old(st.levelsFile)
      && client.xpCooldowns == old(client.xpCooldowns)
    ensures !msg.authorIsBot && msg.guildId.Some? ==>
      var g, u := msg.guildId.value, msg.authorId;
      var config := ConfigOrDefault(old(st.guildConfigs), g);
      var last := LastStamp(old(client.xpCooldowns), XpKey(g, u));
      && st.guildConfigs == WithConfig(old(st.guildConfigs), g)
      && st.guildsFile == (if g in old(st.guildConfigs) then old(st.guildsFile) else Parsed(st.guildConfigs))
      && (outcome == LevelsDisabled <==> !LevelsEnabled(config))
      && (outcome == CoolingDown <==> LevelsEnabled(config) && now - last < XpCooldownMs)
      && (outcome.Awarded? <==> LevelsEnabled(config) && now - last >= XpCooldownMs)
    ensures !outcome.Awarded? ==>
      st.levelsData == old(st.levelsData) && st.levelsFile == old(st.levelsFile)
      && client.xpCooldowns == old(client.xpCooldowns)
    ensures outcome.Awarded? ==>
      var g, u := msg.guildId.value, msg.authorId;
      var config := ConfigOrDefault(old(st.guildConfigs), g);
      var before := ValueOr(old(st.levelsData), g, u, DefaultProgress);
      && outcome.gain == XpGain(XpMin(config), XpMax(config), rand)
      && outcome.progress == AwardXp(before, outcome.gain)
      && (outcome.leveledUp <==> outcome.progress.level == before.level + 1)
      && st.levelsData == Put2(old(st.levelsData), g, u, outcome.progress)
      && st.levelsFile == Parsed(st.levelsData)
      && client.xpCooldowns == old(client.xpCooldowns)[XpKey(g, u) := now]
  {
    if msg.authorIsBot || msg.guildId.None? {
      return Ignored;
    }
    var g, u := msg.guildId.value, msg.authorId;
    var config := st.GetGuildConfig(g);
    if !LevelsEnabled(config) {
      return LevelsDisabled;
    }

    var key := XpKey(g, u);
    var lastXp := LastStamp(client.xpCooldowns, key);
    if now - lastXp < XpCooldownMs {
      return CoolingDown;
    }
    client.xpCooldowns := client.xpCooldowns[key := now];

    var gain := XpGain(XpMin(config), XpMax(config), rand);
    var userLevels := st.GetLevels(g, u);
    var before := userLevels;
    userLevels := userLevels.(xp := userLevels.xp + gain, totalXp := userLevels.totalXp + gain);
    var leveledUp := false;
    var xpNeeded := Threshold(userLevels.level);
    if userLevels.xp >= xpNeeded {
      userLevels := userLevels.(level := userLevels.level + 1, xp := userLevels.xp - xpNeeded);
      leveledUp := true;
    }
    assert userLevels == AwardXp(before, gain);
    PutOverEntry(old(st.levelsData), g, u, DefaultProgress, userLevels);
    userLevels := st.SetLevels(g, u, userLevels);
    outcome := Awarded(gain, leveledUp, userLevels);
  }
}
