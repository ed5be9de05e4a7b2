/**
 * `/daily`: once every 24 hours per user and guild, credit 500 to 999 coins
 * to the wallet. The last claim is kept in the cooldowns file.
 */
module Daily {
  import opened Js
  import opened Storage
  import Client

  const HourMs := 60 * 60 * 1000
  const MinuteMs := 60 * 1000
  const DailyCooldownMs := 24 * HourMs

  /** The command's own `cooldown` property, in seconds, which the
      interaction gate also applies. */
  const DailyCommandCooldown := 86400

  datatype DailyReply = OnCooldown(hours: int, minutes: int) | Claimed(amount: int, wallet: int)

  function DailyKey(guildId: string, userId: string): string
  {
    "daily_" + guildId + "_" + userId
  }

  /** Hours and minutes of a running cooldown, each rounded down:
      `floor(remaining / 1h)` and `floor((remaining % 1h) / 1min)`. The
      remainder is positive, so JavaScript's `%` agrees with Dafny's. A last
      claim in the past gives at most 23 hours; one in the same millisecond
      gives 24h 0m. */
  function TimeLeft(last: int, now: int): (left: (int, int))
    requires now - last < DailyCooldownMs
    ensures left.0 >= 0 && 0 <= left.1 <= 59
    ensures last < now ==> left.0 <= 23
    ensures last == now ==> left == (24, 0)
    ensures var remaining := DailyCooldownMs - (now - last);
      left.0 * HourMs + left.1 * MinuteMs <= remaining < left.0 * HourMs + (left.1 + 1) * MinuteMs
  {
    var remaining := DailyCooldownMs - (now - last);
    (remaining / HourMs, (remaining % HourMs) / MinuteMs)
  }

  /** `Math.floor(Math.random() * 500) + 500`. */
  function DailyPay(rand: real): (amount: int)
    requires 0.0 <= rand < 1.0
    ensures 500 <= amount <= 999
  {
    RandomBelow(rand, 500) + 500
  }

  /** The interaction gate in front of /daily waits exactly as long as the
      command's own check. */
  lemma GatesAgree()
    ensures Client.CooldownAmount(Some(DailyCommandCooldown)) == DailyCooldownMs
  {
  }

  /** The /daily command handler. */
  method Execute(st: JsonStorage, guildId: string, userId: string, now: int, rand: real)
    returns (reply: DailyReply)
    requires 0.0 <= rand < 1.0
    modifies st`economyData, st`economyFile, st`cooldownsFile
    ensures var cooldowns := LoadJson(old(st.cooldownsFile), map[]);
      var last := LastStamp(cooldowns, DailyKey(guildId, userId));
      && (reply.OnCooldown? <==> now - last < DailyCooldownMs)
      && (reply.OnCooldown? ==> (reply.hours, reply.minutes) == TimeLeft(last, now))
    ensures reply.OnCooldown? ==>
      st.economyData == old(st.economyData) && st.economyFile == old(st.economyFile)
      && st.cooldownsFile == old(st.cooldownsFile)
    ensures reply.Claimed? ==>
      var cooldowns := LoadJson(old(st.cooldownsFile), map[]);
      var account := Credit(ValueOr(old(st.economyData), guildId, userId, DefaultAccount), reply.amount);
      && reply.amount == DailyPay(rand)
      && reply.wallet == account.wallet
      && st.economyData == Put2(old(st.economyData), guildId, userId, account)
      && st.economyFile == Parsed(st.economyData)
      && st.cooldownsFile == Parsed(cooldowns[DailyKey(guildId, userId) := now])
  {
    var cooldowns := st.LoadCooldowns();
    var key := DailyKey(guildId, userId);
    var lastClaim := LastStamp(cooldowns, key);
    if now - lastClaim < DailyCooldownMs {
      var left := TimeLeft(lastClaim, now);
      return OnCooldown(left.0, left.1);
    }

    var amount := DailyPay(rand);
    var economy := st.GetEconomy(guildId, userId);
    economy := Credit(economy, amount);
    PutOverEntry(old(st.economyData), guildId, userId, DefaultAccount, economy);
    economy := st.SetEconomy(guildId, userId, economy);

    cooldowns := cooldowns[key := now];
    st.SaveCooldowns(cooldowns);
    reply := Claimed(amount, economy.wallet);
  }
}
