/**
 * `/config`: the subcommands that rewrite one section of a guild's
 * configuration (`prefix`, `welcomer`, `log`, `tickets`, `levels`), the
 * `reset` that merges the defaults back in, and the read-only `view`.
 *
 * Option values arrive as the platform delivers them: a channel or role
 * option is its id or absent, a string option its text or absent, an
 * integer option its value or absent.
 */
module ConfigCommand {
  import opened Js
  import opened Storage
  import MessageXp

  const MaxPrefixLength := 5
  const MinXpOption := 1
  const MaxXpOption := 100

  datatype Subcommand =
    | View
    | Reset
    | SetPrefix(prefix: string)
    | Welcomer(enabled: bool, channel: Option<string>, message: Option<string>, role: Option<string>)
    | Log(enabled: bool, channel: Option<string>)
    | Tickets(enabled: bool, category: Option<string>, supportRole: Option<string>)
    | Levels(enabled: bool, channel: Option<string>, xpMin: Option<int>, xpMax: Option<int>)

  /** The limits the command declares on its options, which the platform
      enforces before the handler runs. */
  predicate OptionsDeclared(sub: Subcommand)
  {
    match sub
    case SetPrefix(p) => |p| <= MaxPrefixLength
    case Levels(_, _, lo, hi) =>
      (lo.Some? ==> MinXpOption <= lo.value <= MaxXpOption)
      && (hi.Some? ==> MinXpOption <= hi.value <= MaxXpOption)
    case _ => true
  }

  /** `channel?.id`, `role?.id` or a string option: the option's text as a
      JSON string, and undefined when the option is not given. */
  function TextOf(option: Option<string>): (r: Option<Json>)
    ensures option.Some? <==> r.Some?
    ensures option.Some? ==> r.value == JStr(option.value)
  {
    if option.Some? then Some(JStr(option.value)) else None
  }

  /** An integer option as a JSON value. */
  function NumberOf(option: Option<int>): (r: Option<Json>)
    ensures option.Some? <==> r.Some?
    ensures option.Some? ==> r.value == JInt(option.value)
  {
    if option.Some? then Some(JInt(option.value)) else None
  }

  /** `{ ...welcome, enabled, channelId: channel?.id || welcome?.channelId,
      message: message || welcome?.message || default,
      roleId: role?.id || welcome?.roleId }`. */
  function WelcomeSection(welcome: Option<Json>, enabled: bool, channel: Option<string>,
                          message: Option<string>, role: Option<string>): (w: Object)
    ensures "enabled" in w && w["enabled"] == JBool(enabled)
    ensures Get(w, "channelId") == Or(TextOf(channel), Prop(welcome, "channelId"))
    ensures Get(w, "roleId") == Or(TextOf(role), Prop(welcome, "roleId"))
    ensures Get(w, "message") == Or(Or(TextOf(message), Prop(welcome, "message")),
                                    Some(JStr(DefaultWelcomeMessage)))
    ensures Truthy(Get(w, "message"))
    ensures forall k :: k in Spread(welcome) && k !in {"enabled", "channelId", "message", "roleId"} ==>
      k in w && w[k] == Spread(welcome)[k]
    ensures w.Keys <= Spread(welcome).Keys + {"enabled", "channelId", "message", "roleId"}
  {
    var w0 := Spread(welcome)["enabled" := JBool(enabled)];
    var w1 := Put(w0, "channelId", Or(TextOf(channel), Prop(welcome, "channelId")));
    var w2 := Put(w1, "message", Or(Or(TextOf(message), Prop(welcome, "message")),
                                    Some(JStr(DefaultWelcomeMessage))));
    Put(w2, "roleId", Or(TextOf(role), Prop(welcome, "roleId")))
  }

  /** `{ enabled, channelId: channel?.id || log?.channelId }`: every other
      field of the old section is dropped. */
  function LogSection(log: Option<Json>, enabled: bool, channel: Option<string>): (l: Object)
    ensures l.Keys <= {"enabled", "channelId"}
    ensures "enabled" in l && l["enabled"] == JBool(enabled)
    ensures Get(l, "channelId") == Or(TextOf(channel), Prop(log, "channelId"))
  {
    Put(map["enabled" := JBool(enabled)], "channelId", Or(TextOf(channel), Prop(log, "channelId")))
  }

  /** `{ enabled, categoryId: category?.id || tickets?.categoryId,
      supportRoleId: supportRole?.id || tickets?.supportRoleId }`. */
  function TicketsSection(tickets: Option<Json>, enabled: bool, category: Option<string>,
                          supportRole: Option<string>): (t: Object)
    ensures t.Keys <= {"enabled", "categoryId", "supportRoleId"}
    ensures "enabled" in t && t["enabled"] == JBool(enabled)
    ensures Get(t, "categoryId") == Or(TextOf(category), Prop(tickets, "categoryId"))
    ensures Get(t, "supportRoleId") == Or(TextOf(supportRole), Prop(tickets, "supportRoleId"))
  {
    var t0 := Put(map["enabled" := JBool(enabled)], "categoryId", Or(TextOf(category), Prop(tickets, "categoryId")));
    Put(t0, "supportRoleId", Or(TextOf(supportRole), Prop(tickets, "supportRoleId")))
  }

  /** `{ enabled, announceChannelId: channel?.id || levels?.announceChannelId,
      xpMin: xpMin || levels?.xpMin || 15, xpMax: xpMax || levels?.xpMax || 25 }`. */
  function LevelsSection(levels: Option<Json>, enabled: bool, channel: Option<string>,
                         xpMin: Option<int>, xpMax: Option<int>): (s: Object)
    ensures s.Keys <= {"enabled", "announceChannelId", "xpMin", "xpMax"}
    ensures "enabled" in s && s["enabled"] == JBool(enabled)
    ensures Get(s, "announceChannelId") == Or(TextOf(channel), Prop(levels, "announceChannelId"))
    ensures Get(s, "xpMin") == Or(Or(NumberOf(xpMin), Prop(levels, "xpMin")), Some(JInt(MessageXp.DefaultXpMin)))
    ensures Get(s, "xpMax") == Or(Or(NumberOf(xpMax), Prop(levels, "xpMax")), Some(JInt(MessageXp.DefaultXpMax)))
  {
    var s0 := Put(map["enabled" := JBool(enabled)], "announceChannelId",
                  Or(TextOf(channel), Prop(levels, "announceChannelId")));
    var s1 := Put(s0, "xpMin", Or(Or(NumberOf(xpMin), Prop(levels, "xpMin")), Some(JInt(MessageXp.DefaultXpMin))));
    Put(s1, "xpMax", Or(Or(NumberOf(xpMax), Prop(levels, "xpMax")), Some(JInt(MessageXp.DefaultXpMax))))
  }

  /** The top-level key a subcommand rewrites; `view` and `reset` have none. */
  function SectionOf(sub: Subcommand): Option<string>
  {
    match sub
    case View => None
    case Reset => None
    case SetPrefix(_) => Some("prefix")
    case Welcomer(_, _, _, _) => Some("welcome")
    case Log(_, _) => Some("log")
    case Tickets(_, _, _) => Some("tickets")
    case Levels(_, _, _, _) => Some("levels")
  }

  /** The configuration a subcommand leaves behind: `view` keeps it,
      `reset` puts every default back, `prefix` stores the new prefix, and
      each other subcommand stores an object section whose `enabled` is the
      option given. What else stays is stated by `OnlyOwnSectionChanges`
      and `ResetRestoresDefaults`. */
  function Apply(config: Config, sub: Subcommand): (r: Config)
    ensures sub.View? ==> r == config
    ensures sub.Reset? ==> forall k :: k in DefaultConfig ==> k in r && r[k] == DefaultConfig[k]
    ensures sub.SetPrefix? ==> "prefix" in r && r["prefix"] == JStr(sub.prefix)
    ensures SectionOf(sub).Some? && !sub.SetPrefix? ==>
      var k := SectionOf(sub).value;
      k in r && r[k].JObj? && "enabled" in r[k].fields && r[k].fields["enabled"] == JBool(sub.enabled)
  {
    match sub
    case View => config
    case Reset => ShallowMerge(config, DefaultConfig)
    case SetPrefix(p) => config["prefix" := JStr(p)]
    case Welcomer(en, ch, msg, role) =>
      config["welcome" := JObj(WelcomeSection(Get(config, "welcome"), en, ch, msg, role))]
    case Log(en, ch) =>
      config["log" := JObj(LogSection(Get(config, "log"), en, ch))]
    case Tickets(en, cat, role) =>
      config["tickets" := JObj(TicketsSection(Get(config, "tickets"), en, cat, role))]
    case Levels(en, ch, lo, hi) =>
      config["levels" := JObj(LevelsSection(Get(config, "levels"), en, ch, lo, hi))]
  }

  /** Each update subcommand writes its own section and leaves every other
      top-level key exactly as it was; `view` changes nothing. */
  lemma {:induction false} OnlyOwnSectionChanges(config: Config, sub: Subcommand)
    requires !sub.Reset?
    ensures SectionOf(sub).None? ==> Apply(config, sub) == config
    ensures SectionOf(sub).Some? ==> Apply(config, sub).Keys == config.Keys + {SectionOf(sub).value}
    ensures forall k :: k in config && SectionOf(sub) != Some(k) ==> Apply(config, sub)[k] == config[k]
  {
  }

  /** `reset` puts back every default section and prefix, and keeps any
      other top-level key; applied to a default configuration it changes
      nothing. */
  lemma {:induction false} ResetRestoresDefaults(config: Config)
    ensures var r := Apply(config, Reset);
      && r.Keys == config.Keys + DefaultConfig.Keys
      && (forall k :: k in DefaultConfig ==> r[k] == DefaultConfig[k])
      && (forall k :: k in config && k !in DefaultConfig ==> r[k] == config[k])
    ensures Apply(DefaultConfig, Reset) == DefaultConfig
  {
  }

  /** A bound `levels` stores is an integer option value in 1..100. */
  predicate BoundInRange(v: Option<Json>)
  {
    v.Some? && v.value.JInt? && MinXpOption <= v.value.n <= MaxXpOption
  }

  /** With its declared option limits, `/config levels` keeps both XP bounds
      integers in 1..100 when the old ones were (or were unset), so every
      message then gains between 1 and 100 XP. */
  lemma {:induction false} LevelsKeepsBoundsInRange(config: Config, sub: Subcommand, rand: real)
    requires sub.Levels? && OptionsDeclared(sub)
    requires 0.0 <= rand < 1.0
    requires var before := Get(config, "levels");
      (!Truthy(Prop(before, "xpMin")) || BoundInRange(Prop(before, "xpMin")))
      && (!Truthy(Prop(before, "xpMax")) || BoundInRange(Prop(before, "xpMax")))
    ensures var levels := Get(Apply(config, sub), "levels");
      BoundInRange(Prop(levels, "xpMin")) && BoundInRange(Prop(levels, "xpMax"))
    ensures var c := Apply(config, sub);
      1 <= MessageXp.XpGain(MessageXp.XpMin(c), MessageXp.XpMax(c), rand) <= 100
  {
    var c := Apply(config, sub);
    var levels := Get(c, "levels");
    assert Prop(levels, "xpMin") == Get(LevelsSection(Get(config, "levels"), sub.enabled, sub.channel, sub.xpMin, sub.xpMax), "xpMin");
    assert Prop(levels, "xpMax") == Get(LevelsSection(Get(config, "levels"), sub.enabled, sub.channel, sub.xpMin, sub.xpMax), "xpMax");
  }

  /** The /config command handler. */
  method Execute(st: JsonStorage, guildId: string, sub: Subcommand)
    requires OptionsDeclared(sub)
    modifies st`guildConfigs, st`guildsFile
    ensures st.guildConfigs == old(st.guildConfigs)[guildId := Apply(ConfigOrDefault(old(st.guildConfigs), guildId), sub)]
    ensures sub.View? && guildId in old(st.guildConfigs) ==> st.guildsFile == old(st.guildsFile)
    ensures !(sub.View? && guildId in old(st.guildConfigs)) ==> st.guildsFile == Parsed(st.guildConfigs)
  {
    var config := st.GetGuildConfig(guildId);
    if sub.View? {
      assert st.guildConfigs == old(st.guildConfigs)[guildId := config];
      return;
    }
    if sub.Reset? {
      config := st.SetGuildConfig(guildId, DefaultConfig);
      assert config == Apply(ConfigOrDefault(old(st.guildConfigs), guildId), sub);
      return;
    }
    config := Apply(config, sub);
    // `config` is the stored object itself: the assignment changes the
    // store before setGuildConfig merges the object into itself.
    st.guildConfigs := st.guildConfigs[guildId := config];
    SelfMergeIsIdentity(config);
    config := st.SetGuildConfig(guildId, config);
  }
}
