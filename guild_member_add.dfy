/**
 * The welcome message sent when a member joins: only when the guild enabled
 * it and chose a channel, with the placeholders `{user}`, `{username}`,
 * `{server}` and `{memberCount}` replaced, in that order, by global
 * string replacement.
 */
module WelcomeMessage {
  import opened Js
  import opened Storage
  import ConfigCommand

  /** The joining member and the guild facts the message can mention. */
  datatype Member = Member(id: string, username: string, serverName: string, memberCount: nat)

  predicate StartsWith(s: string, prefix: string)
  {
    |prefix| <= |s| && s[..|prefix|] == prefix
  }

  /** `pat` occurs in `s` at index `i`. */
  predicate MatchAt(s: string, pat: string, i: int)
  {
    0 <= i && i + |pat| <= |s| && s[i..i + |pat|] == pat
  }

  /** `pat` occurs somewhere in `s`. */
  ghost predicate Occurs(s: string, pat: string)
  {
    exists i :: MatchAt(s, pat, i)
  }

  /** `s.replace(/pat/g, rep)` for a literal pattern: matches are found left
      to right without overlapping, and a replacement is never rescanned. */
  function ReplaceAll(s: string, pat: string, rep: string): string
    requires pat != ""
    decreases |s|
  {
    if s == [] then []
    else if StartsWith(s, pat) then
      assert s == s[..|pat|] + s[|pat|..];
      rep + ReplaceAll(s[|pat|..], pat, rep)
    else
      assert s == [s[0]] + s[1..];
      [s[0]] + ReplaceAll(s[1..], pat, rep)
  }

  lemma MatchAtStart(s: string, pat: string)
    ensures MatchAt(s, pat, 0) <==> StartsWith(s, pat)
  {
    if |pat| <= |s| {
      assert s[..|pat|] == s[0..0 + |pat|];
    }
  }

  /** A match in the tail of `s` is a match in `s` one place further on. */
  lemma MatchInTail(s: string, pat: string, j: int)
    requires s != [] && 0 <= j
    ensures MatchAt(s[1..], pat, j) <==> MatchAt(s, pat, j + 1)
  {
    if j + |pat| <= |s| - 1 {
      assert s[1..][j..j + |pat|] == s[j + 1..j + 1 + |pat|];
    }
  }

  /** One step of the scan away from a match: the first character is kept. */
  lemma ReplaceStep(s: string, pat: string, rep: string)
    requires pat != "" && s != [] && !StartsWith(s, pat)
    ensures ReplaceAll(s, pat, rep) == [s[0]] + ReplaceAll(s[1..], pat, rep)
  {
  }

  /** The first match of `s` at `i > 0` is the first match of its tail, one
      place earlier. */
  lemma FirstMatchInTail(s: string, pat: string, i: nat)
    requires 0 < i && MatchAt(s, pat, i)
    requires forall j :: 0 <= j < i ==> !MatchAt(s, pat, j)
    ensures MatchAt(s[1..], pat, i - 1)
    ensures forall j :: 0 <= j < i - 1 ==> !MatchAt(s[1..], pat, j)
  {
    MatchInTail(s, pat, i - 1);
    forall j | 0 <= j < i - 1
      ensures !MatchAt(s[1..], pat, j)
    {
      MatchInTail(s, pat, j);
    }
  }

  /** Putting the kept first character in front of the tail's result. */
  lemma ReplaceFirstStep(s: string, pat: string, rep: string, i: nat)
    requires pat != "" && 0 < i && i + |pat| <= |s| && !StartsWith(s, pat)
    requires ReplaceAll(s[1..], pat, rep)
             == s[1..][..i - 1] + rep + ReplaceAll(s[1..][i - 1 + |pat|..], pat, rep)
    ensures ReplaceAll(s, pat, rep) == s[..i] + rep + ReplaceAll(s[i + |pat|..], pat, rep)
  {
    var t := s[1..];
    ConsBeforeMatch(s, i, |pat|);
    var rest := ReplaceAll(s[i + |pat|..], pat, rep);
    ConsPrefix(s[0], t[..i - 1], s[..i], rep, rest);
    ReplaceStep(s, pat, rep);
  }

  /** The global rule: the text before the first match is kept, that match
      is replaced, and scanning resumes right after it. */
  lemma {:induction false} ReplaceFirst(s: string, pat: string, rep: string, i: nat)
    requires pat != "" && MatchAt(s, pat, i)
    requires forall j :: 0 <= j < i ==> !MatchAt(s, pat, j)
    ensures ReplaceAll(s, pat, rep) == s[..i] + rep + ReplaceAll(s[i + |pat|..], pat, rep)
    decreases i
  {
    MatchAtStart(s, pat);
    if i == 0 {
      ReplaceAtStart(s, pat, rep);
      assert s[..0] + rep == rep;
    } else {
      FirstMatchInTail(s, pat, i);
      ReplaceFirst(s[1..], pat, rep, i - 1);
      ReplaceFirstStep(s, pat, rep, i);
    }
  }

  /** Sequence bookkeeping for `ReplaceFirst`: the tail's prefix with the
      first character back in front is the prefix of `s`, and the tail's
      suffix is the suffix of `s`. */
  lemma ConsBeforeMatch(s: string, i: nat, n: nat)
    requires 0 < i && i + n <= |s|
    ensures [s[0]] + s[1..][..i - 1] == s[..i]
    ensures s[1..][i - 1 + n..] == s[i + n..]
  {
  }

  lemma ConsPrefix(c: char, u: string, v: string, rep: string, rest: string)
    requires [c] + u == v
    ensures [c] + (u + rep + rest) == v + rep + rest
  {
  }

  /** A leading match is replaced and scanning resumes right after it. */
  lemma ReplaceAtStart(s: string, pat: string, rep: string)
    requires pat != "" && StartsWith(s, pat)
    ensures ReplaceAll(s, pat, rep) == rep + ReplaceAll(s[|pat|..], pat, rep)
  {
  }

  /** A string without the pattern comes back unchanged. */
  lemma {:induction false} ReplaceAbsent(s: string, pat: string, rep: string)
    requires pat != "" && !Occurs(s, pat)
    ensures ReplaceAll(s, pat, rep) == s
    decreases |s|
  {
    if s != [] {
      assert !StartsWith(s, pat) by {
        if StartsWith(s, pat) {
          assert s[..|pat|] == s[0..0 + |pat|];
          assert MatchAt(s, pat, 0);
        }
      }
      assert !Occurs(s[1..], pat) by {
        forall i | MatchAt(s[1..], pat, i)
          ensures false
        {
          assert s[1..][i..i + |pat|] == s[i + 1..i + 1 + |pat|];
          assert MatchAt(s, pat, i + 1);
        }
      }
      ReplaceAbsent(s[1..], pat, rep);
    }
  }

  /** Text before the first `{` passes through a `{...}` replacement as is. */
  lemma {:induction false} ReplaceAfterBraceFree(a: string, t: string, pat: string, rep: string)
    requires pat != "" && pat[0] == '{' && '{' !in a
    ensures ReplaceAll(a + t, pat, rep) == a + ReplaceAll(t, pat, rep)
    decreases |a|
  {
    if a != [] {
      var s := a + t;
      assert s[0] == a[0] && a[0] != '{';
      assert !StartsWith(s, pat);
      assert s[1..] == a[1..] + t;
      assert '{' !in a[1..];
      ReplaceAfterBraceFree(a[1..], t, pat, rep);
      calc {
        ReplaceAll(s, pat, rep);
        [s[0]] + ReplaceAll(s[1..], pat, rep);
        [a[0]] + (a[1..] + ReplaceAll(t, pat, rep));
        { assert a == [a[0]] + a[1..]; }
        a + ReplaceAll(t, pat, rep);
      }
    } else {
      assert a + t == t;
    }
  }

  /** A string without `{` is left alone by every placeholder replacement. */
  lemma {:induction false} BraceFreeUnchanged(s: string, pat: string, rep: string)
    requires pat != "" && pat[0] == '{' && '{' !in s
    ensures ReplaceAll(s, pat, rep) == s
  {
    ReplaceAfterBraceFree(s, [], pat, rep);
    assert s + [] == s;
  }

  /** A leading match is replaced and scanning resumes right after it. */
  lemma {:induction false} ReplaceLeading(t: string, pat: string, rep: string)
    requires pat != ""
    ensures ReplaceAll(pat + t, pat, rep) == rep + ReplaceAll(t, pat, rep)
  {
    var s := pat + t;
    assert s[..|pat|] == pat;
    assert s[|pat|..] == t;
  }

  function Digit(d: nat): char
    requires d < 10
  {
    ('0' as int + d) as char
  }

  /** The number a string of decimal digits denotes, most significant first. */
  function DigitsValue(s: string): int
  {
    if s == [] then 0 else 10 * DigitsValue(s[..|s| - 1]) + (s[|s| - 1] as int - '0' as int)
  }

  /** `String(n)` for a non-negative integer: decimal digits that denote `n`,
      without leading zeros. */
  function DecimalString(n: nat): (s: string)
    ensures |s| >= 1
    ensures forall i :: 0 <= i < |s| ==> '0' <= s[i] <= '9'
    ensures DigitsValue(s) == n
    ensures |s| > 1 ==> s[0] != '0'
  {
    if n < 10 then [Digit(n)]
    else
      var s := DecimalString(n / 10) + [Digit(n % 10)];
      assert s[..|s| - 1] == DecimalString(n / 10);
      s
  }

  /** The four replacements of the handler, in the handler's order. */
  function Substitute(message: string, member: Member): string
  {
    var s1 := ReplaceAll(message, "{user}", "<@" + member.id + ">");
    var s2 := ReplaceAll(s1, "{username}", member.username);
    var s3 := ReplaceAll(s2, "{server}", member.serverName);
    ReplaceAll(s3, "{memberCount}", DecimalString(member.memberCount))
  }

  /** The guild's welcome section. */
  function WelcomeOf(config: Config): Option<Json>
  {
    Get(config, "welcome")
  }

  /** The welcome text the handler sends, if any. Nothing is sent unless
      `welcome.enabled` and `welcome.channelId` are both truthy and the
      channel is in the guild's cache; an unset or empty message falls back
      to the default; a message that is not a string makes `.replace` throw,
      so nothing is sent either. */
  function WelcomeText(config: Config, member: Member, channelCached: bool): (r: Option<string>)
    ensures r.Some? <==> Truthy(Prop(WelcomeOf(config), "enabled"))
                         && Truthy(Prop(WelcomeOf(config), "channelId")) && channelCached
                         && Or(Prop(WelcomeOf(config), "message"), Some(JStr(DefaultWelcomeMessage))).value.JStr?
    ensures r.Some? ==>
      r.value == Substitute(Or(Prop(WelcomeOf(config), "message"), Some(JStr(DefaultWelcomeMessage))).value.s, member)
    ensures !Truthy(Prop(WelcomeOf(config), "message")) && r.Some? ==>
      r.value == Substitute(DefaultWelcomeMessage, member)
  {
    var welcome := WelcomeOf(config);
    if !Truthy(Prop(welcome, "enabled")) || !Truthy(Prop(welcome, "channelId")) || !channelCached then None
    else
      var message := Or(Prop(welcome, "message"), Some(JStr(DefaultWelcomeMessage))).value;
      if message.JStr? then Some(Substitute(message.s, member)) else None
  }

  /** A message with none of the four placeholders is sent as written. */
  lemma {:induction false} NoPlaceholderUnchanged(message: string, member: Member)
    requires !Occurs(message, "{user}") && !Occurs(message, "{username}")
    requires !Occurs(message, "{server}") && !Occurs(message, "{memberCount}")
    ensures Substitute(message, member) == message
  {
    ReplaceAbsent(message, "{user}", "<@" + member.id + ">");
    ReplaceAbsent(message, "{username}", member.username);
    ReplaceAbsent(message, "{server}", member.serverName);
    ReplaceAbsent(message, "{memberCount}", DecimalString(member.memberCount));
  }

  /** The `{user}` step on a message whose only placeholder is one `{user}`. */
  lemma UserStep(a: string, b: string, mention: string)
    requires '{' !in a && '{' !in b
    ensures ReplaceAll(a + "{user}" + b, "{user}", mention) == a + mention + b
  {
    assert a + "{user}" + b == a + ("{user}" + b);
    ReplaceAfterBraceFree(a, "{user}" + b, "{user}", mention);
    ReplaceLeading(b, "{user}", mention);
    BraceFreeUnchanged(b, "{user}", mention);
    assert a + (mention + b) == a + mention + b;
  }

  /** The last three replacements leave a brace-free text alone. */
  lemma LaterStepsKeep(s1: string, member: Member)
    requires '{' !in s1
    ensures ReplaceAll(ReplaceAll(ReplaceAll(s1, "{username}", member.username), "{server}", member.serverName),
                       "{memberCount}", DecimalString(member.memberCount)) == s1
  {
    BraceFreeUnchanged(s1, "{username}", member.username);
    BraceFreeUnchanged(s1, "{server}", member.serverName);
    BraceFreeUnchanged(s1, "{memberCount}", DecimalString(member.memberCount));
  }

  /** A message whose only placeholder is one `{user}` mentions the member
      there and is otherwise sent as written. */
  lemma {:induction false} MentionOnly(a: string, b: string, member: Member)
    requires '{' !in a && '{' !in b && '{' !in member.id
    ensures Substitute(a + "{user}" + b, member) == a + "<@" + member.id + ">" + b
  {
    var mention := "<@" + member.id + ">";
    UserStep(a, b, mention);
    var s1 := a + mention + b;
    assert '{' !in s1;
    LaterStepsKeep(s1, member);
    assert s1 == a + "<@" + member.id + ">" + b;
  }

  /** The default message greets the member by mention. */
  lemma {:induction false} DefaultMessageMentionsMember(member: Member)
    requires '{' !in member.id
    ensures Substitute(DefaultWelcomeMessage, member) == "Benvenuto " + "<@" + member.id + ">" + "!"
  {
    assert DefaultWelcomeMessage == "Benvenuto " + "{user}" + "!";
    MentionOnly("Benvenuto ", "!", member);
  }

  /** Replacements run in sequence, so a username that itself reads
      `{server}` ends up as the server's name. */
  lemma {:induction false} LaterPlaceholdersSeeEarlierText(member: Member)
    requires member.username == "{server}" && '{' !in member.serverName
    ensures Substitute("{username}", member) == member.serverName
  {
    var mention := "<@" + member.id + ">";
    assert !StartsWith("{username}", "{user}") by {
      assert "{username}"[..6] != "{user}" by { assert "{username}"[5] == 'n'; }
    }
    assert "{username}"[1..] == "username}";
    BraceFreeUnchanged("username}", "{user}", mention);
    assert ReplaceAll("{username}", "{user}", mention) == "{username}";
    ReplaceLeading([], "{username}", member.username);
    assert "{username}" + [] == "{username}";
    ReplaceLeading([], "{server}", member.serverName);
    assert "{server}" + [] == "{server}";
    assert member.serverName + [] == member.serverName;
    BraceFreeUnchanged(member.serverName, "{memberCount}", DecimalString(member.memberCount));
  }

  /** The default configuration sends no welcome. */
  lemma DefaultConfigSendsNothing(member: Member, channelCached: bool)
    ensures WelcomeText(DefaultConfig, member, channelCached) == None
  {
  }

  /** After `/config welcomer` enables the welcome with a channel and a
      message, joining members get that message with placeholders filled. */
  lemma {:induction false} ConfiguredWelcomeIsSent(config: Config, channel: string, message: string,
                                                   role: Option<string>, member: Member)
    requires channel != "" && message != ""
    ensures var c := ConfigCommand.Apply(config, ConfigCommand.Welcomer(true, Some(channel), Some(message), role));
      WelcomeText(c, member, true) == Some(Substitute(message, member))
  {
    var sub := ConfigCommand.Welcomer(true, Some(channel), Some(message), role);
    var c := ConfigCommand.Apply(config, sub);
    var w := ConfigCommand.WelcomeSection(Get(config, "welcome"), true, Some(channel), Some(message), role);
    assert WelcomeOf(c) == Some(JObj(w));
    assert Prop(WelcomeOf(c), "message") == Get(w, "message");
    assert Prop(WelcomeOf(c), "channelId") == Get(w, "channelId");
  }
}
