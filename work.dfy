/**
 * `/work`: once an hour per user and guild, credit 100 to 399 coins to the
 * wallet. The last use is kept in the cooldowns file.
 */
module Work {
  import opened Js
  import opened Storage

  const WorkCooldownMs := 60 * 60 * 1000

  datatype WorkReply = Tired(minutes: int) | Worked(amount: int, wallet: int)

  function WorkKey(guildId: string, userId: string): string
  {
    "work_" + guildId + "_" + userId
  }

  /** `Math.floor(remaining / 60000)` for the time left of a running
      cooldown: whole minutes, rounded down. A last use in the past gives 0
      to 59; one in the same millisecond gives 60. */
  function MinutesLeft(last: int, now: int): (minutes: int)
    requires now - last < WorkCooldownMs
    ensures minutes >= 0
    ensures last < now ==> minutes <= 59
    ensures last == now ==> minutes == 60
    ensures minutes * 60000 <= WorkCooldownMs - (now - last) < (minutes + 1) * 60000
  {
    (WorkCooldownMs - (now - last)) / 60000
  }

  /** `Math.floor(Math.random() * 300) + 100`. */
  function WorkPay(rand: real): (amount: int)
    requires 0.0 <= rand < 1.0
    ensures 100 <= amount <= 399
  {
    RandomBelow(rand, 300) + 100
  }

  /** The /work command handler. */
  method Execute(st: JsonStorage, guildId: string, userId: string, now: int, rand: real)
    returns (reply: WorkReply)
    requires 0.0 <= rand < 1.0
    modifies st`economyData, st`economyFile, st`cooldownsFile
    ensures var cooldowns := LoadJson(old(st.cooldownsFile), map[]);
      var last := LastStamp(cooldowns, WorkKey(guildId, userId));
      && (reply.Tired? <==> now - last < WorkCooldownMs)
      && (reply.Tired? ==> reply.minutes == MinutesLeft(last, now))
    ensures reply.Tired? ==>
      st.economyData == old(st.economyData) && st.economyFile == old(st.economyFile)
      && st.cooldownsFile == old(st.cooldownsFile)
    ensures reply.Worked? ==>
      var cooldowns := LoadJson(old(st.cooldownsFile), map[]);
      var account := Credit(ValueOr(old(st.economyData), guildId, userId, DefaultAccount), reply.amount);
      && reply.amount == WorkPay(rand)
      && reply.wallet == account.wallet
      && st.economyData == Put2(old(st.economyData), guildId, userId, account)
      && st.economyFile == Parsed(st.economyData)
      && st.cooldownsFile == Parsed(cooldowns[WorkKey(guildId, userId) := now])
  {
    var cooldowns := st.LoadCooldowns();
    var key := WorkKey(guildId, userId);
    var lastWork := LastStamp(cooldowns, key);
    if now - lastWork < WorkCooldownMs {
      return Tired(MinutesLeft(lastWork, now));
    }

    var amount := WorkPay(rand);
    var economy := st.GetEconomy(guildId, userId);
    economy := Credit(economy, amount);
    PutOverEntry(old(st.economyData), guildId, userId, DefaultAccount, economy);
    economy := st.SetEconomy(guildId, userId, economy);

    cooldowns := cooldowns[key := now];
    st.SaveCooldowns(cooldowns);
    reply := Worked(amount, economy.wallet);
  }
}
