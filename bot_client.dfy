/**
 * The bot client's in-memory state and the per-command, per-user cooldown
 * gate every slash command passes through before it runs.
 */
module Client {
  import opened Js

  /** Seconds of cooldown for a command that declares none. */
  const DefaultCooldownSeconds := 3

  /** `(command.cooldown ?? 3) * 1000`: `??` falls back only when the command
      declares no cooldown, so a declared 0 stays 0. */
  function CooldownAmount(cooldown: Option<int>): (ms: int)
    ensures cooldown.None? ==> ms == 3000
    ensures cooldown.Some? ==> ms == cooldown.value * 1000
  {
    (if cooldown.Some? then cooldown.value else DefaultCooldownSeconds) * 1000
  }

  /** A call is let through unless the user has a stamp whose cooldown has
      not yet run out. */
  predicate Admits(stamps: map<string, int>, userId: string, now: int, amount: int)
  {
    !(userId in stamps && now < stamps[userId] + amount)
  }

  datatype Gate = Accepted | Rejected(expiration: int)

  /** After an accepted call stamps `t0`, the same user is turned away exactly
      until `t0 + amount`, and nobody else's admission changes. */
  lemma {:induction false} StampBlocksUntilExpiry(stamps: map<string, int>, userId: string, t0: int,
                                                  t1: int, amount: int)
    ensures Admits(stamps[userId := t0], userId, t1, amount) <==> t1 >= t0 + amount
    ensures forall other :: other != userId ==>
      (Admits(stamps[userId := t0], other, t1, amount) <==> Admits(stamps, other, t1, amount))
  {
  }

  class BotClient {
    /** `client.cooldowns`: command name to (user id to last accepted call). */
    var cooldowns: map<string, map<string, int>>
    /** `client.xpCooldowns`: XP cooldown key to last rewarded message. */
    var xpCooldowns: map<string, int>

    constructor ()
      ensures cooldowns == map[] && xpCooldowns == map[]
    {
      cooldowns := map[];
      xpCooldowns := map[];
    }

    /** The cooldown check of the InteractionCreate handler. */
    method GateCommand(name: string, cooldown: Option<int>, userId: string, now: int)
      returns (gate: Gate)
      modifies this`cooldowns
      ensures var stamps := EntryOrEmpty(old(cooldowns), name);
        gate.Accepted? <==> Admits(stamps, userId, now, CooldownAmount(cooldown))
      ensures var stamps := EntryOrEmpty(old(cooldowns), name);
        gate.Rejected? ==> cooldowns == old(cooldowns)
                           && gate.expiration == stamps[userId] + CooldownAmount(cooldown)
      ensures var stamps := EntryOrEmpty(old(cooldowns), name);
        gate.Accepted? ==> cooldowns == old(cooldowns)[name := stamps[userId := now]]
    {
      if name !in cooldowns {
        cooldowns := cooldowns[name := map[]];
      }
      var timestamps := cooldowns[name];
      var amount := CooldownAmount(cooldown);
      if userId in timestamps {
        var expirationTime := timestamps[userId] + amount;
        if now < expirationTime {
          return Rejected(expirationTime);
        }
      }
      cooldowns := cooldowns[name := timestamps[userId := now]];
      gate := Accepted;
    }

    /** The timer set after an accepted call: it forgets the user's stamp. */
    method ForgetStamp(name: string, userId: string)
      modifies this`cooldowns
      ensures name in old(cooldowns) ==> cooldowns == old(cooldowns)[name := old(cooldowns)[name] - {userId}]
      ensures name !in old(cooldowns) ==> cooldowns == old(cooldowns)
    {
      if name in cooldowns {
        cooldowns := cooldowns[name := cooldowns[name] - {userId}];
      }
    }
  }
}
