/**
 * The dashboard backend: the four settings documents the `POST
 * /guild/{id}/...` endpoints rewrite, the request-body validation in front
 * of them, the economy and levels leaderboards, the Administrator-bit filter
 * applied to the user's guilds after login, and the command count.
 *
 * Documents hold whatever their file parsed to, so a document that is not
 * an object makes the endpoints that index it fail with a server error, as
 * Python raises on it.
 */
module Dashboard {
  import opened Js
  import opened Storage
  import opened StableSort

  /** `load_json(filename, default)`: the parsed file, else the default
      unless it is `None`, else an empty object. A `None` default, given or
      omitted, is `Some(JNull)` or `None` here. */
  function LoadJsonPy(file: FileState<Json>, default: Option<Json>): (r: Json)
    ensures file.Parsed? ==> r == file.content
    ensures !file.Parsed? && default.Some? && !default.value.JNull? ==> r == default.value
    ensures !file.Parsed? && (default.None? || default.value.JNull?) ==> r == JObj(map[])
  {
    LoadJson(file, if default.Some? && !default.value.JNull? then default.value else JObj(map[]))
  }

  /** What an endpoint answers: a JSON body, a rejected request body
      (HTTP 422), or an exception raised by the handler (HTTP 500). */
  datatype Response = Ok(body: Json) | Unprocessable | ServerError

  // ---------------------------------------------------------------------
  // Request bodies

  /** The field types the settings models use. */
  datatype FieldKind =
    | Bool           // bool
    | OptText        // Optional[str]
    | OptObject      // Optional[Dict[str, Any]]
    | OptIntObject   // Optional[Dict[str, int]]

  datatype Field = Field(name: string, kind: FieldKind, default: Json)

  type Schema = seq<Field>

  /** A JSON value the field's type takes as it is. */
  predicate Accepts(kind: FieldKind, v: Json)
  {
    match kind
    case Bool => v.JBool?
    case OptText => v.JStr? || v.JNull?
    case OptObject => v.JObj? || v.JNull?
    case OptIntObject => v.JNull? || (v.JObj? && forall k :: k in v.fields ==> v.fields[k].JInt?)
  }

  const WelcomerSettings: Schema := [
    Field("enabled", Bool, JBool(true)),
    Field("channelId", OptText, JStr("")),
    Field("message", OptText, JStr("")),
    Field("embed", OptObject, JNull),
    Field("roleId", OptText, JStr("")),
    Field("leaveEnabled", Bool, JBool(false)),
    Field("leaveMessage", OptText, JStr(""))
  ]

  const LogSettings: Schema := [
    Field("enabled", Bool, JBool(true)),
    Field("channelId", OptText, JStr(""))
  ]

  const TicketSettings: Schema := [
    Field("enabled", Bool, JBool(true)),
    Field("categoryId", OptText, JStr("")),
    Field("supportRoleId", OptText, JStr("")),
    Field("welcomeMessage", OptText, JStr(""))
  ]

  const LevelSettings: Schema := [
    Field("enabled", Bool, JBool(true)),
    Field("announceChannelId", OptText, JStr("")),
    Field("xpPerMessage", OptIntObject, JNull)
  ]

  predicate DistinctNames(schema: Schema)
  {
    forall i, j :: 0 <= i < j < |schema| ==> schema[i].name != schema[j].name
  }

  /** Field names are distinct and every default has the field's type. */
  predicate WellFormed(schema: Schema)
  {
    DistinctNames(schema) && forall i :: 0 <= i < |schema| ==> Accepts(schema[i].kind, schema[i].default)
  }

  function Names(schema: Schema): set<string>
  {
    set i | 0 <= i < |schema| :: schema[i].name
  }

  /** What `.dict()` holds for one field: the given value, else the default. */
  function FieldValue(f: Field, given: Object): Json
  {
    if f.name in given then given[f.name] else f.default
  }

  /** Check each declared field and build the model's `.dict()`: absent
      fields take their default and undeclared keys are dropped. */
  function ValidateFields(schema: Schema, given: Object): (r: Option<Object>)
    ensures r.Some? <==> forall i :: 0 <= i < |schema| && schema[i].name in given ==>
                           Accepts(schema[i].kind, given[schema[i].name])
    ensures r.Some? ==> r.value.Keys == Names(schema)
    ensures r.Some? && DistinctNames(schema) ==>
      forall i :: 0 <= i < |schema| ==> r.value[schema[i].name] == FieldValue(schema[i], given)
  {
    if schema == [] then Some(map[])
    else
      var f := schema[0];
      var rest := ValidateFields(schema[1..], given);
      if f.name in given && !Accepts(f.kind, given[f.name]) then None
      else if rest.None? then None
      else
        assert Names(schema) == {f.name} + Names(schema[1..]) by {
          forall n | n in Names(schema) ensures n in {f.name} + Names(schema[1..]) {
            var i :| 0 <= i < |schema| && schema[i].name == n;
            if i > 0 { assert schema[1..][i - 1].name == n; }
          }
        }
        Some(rest.value[f.name := FieldValue(f, given)])
  }

  /** The request body parsed into a settings model, or a 422 rejection. */
  function Validate(schema: Schema, body: Json): (r: Option<Object>)
    ensures r.Some? <==> body.JObj? && ValidateFields(schema, body.fields).Some?
  {
    if body.JObj? then ValidateFields(schema, body.fields) else None
  }

  /** A built model passes its own field checks. */
  lemma {:induction false} ModelFieldsAccepted(schema: Schema, given: Object)
    requires WellFormed(schema) && ValidateFields(schema, given).Some?
    ensures ValidateFields(schema, ValidateFields(schema, given).value).Some?
  {
    var e := ValidateFields(schema, given).value;
    forall i | 0 <= i < |schema| && schema[i].name in e
      ensures Accepts(schema[i].kind, e[schema[i].name])
    {
      assert e[schema[i].name] == FieldValue(schema[i], given);
    }
  }

  /** Re-validating a built model gives back the same fields. */
  lemma {:induction false} ModelRebuiltUnchanged(schema: Schema, given: Object)
    requires WellFormed(schema) && ValidateFields(schema, given).Some?
    requires ValidateFields(schema, ValidateFields(schema, given).value).Some?
    ensures ValidateFields(schema, ValidateFields(schema, given).value).value == ValidateFields(schema, given).value
  {
    var e := ValidateFields(schema, given).value;
    var again := ValidateFields(schema, e).value;
    forall n | n in e
      ensures again[n] == e[n]
    {
      var i :| 0 <= i < |schema| && schema[i].name == n;
      assert again[n] == FieldValue(schema[i], e);
    }
  }

  /** What a valid model holds, re-validated, comes back unchanged: the
      stored entry is itself a valid request body for the same endpoint. */
  lemma {:induction false} ValidateIdempotent(schema: Schema, body: Json)
    requires WellFormed(schema) && Validate(schema, body).Some?
    ensures Validate(schema, JObj(Validate(schema, body).value)) == Validate(schema, body)
  {
    ModelFieldsAccepted(schema, body.fields);
    ModelRebuiltUnchanged(schema, body.fields);
  }

  /** An empty body stores every default. */
  lemma {:induction false} EmptyBodyStoresDefaults(schema: Schema)
    requires WellFormed(schema)
    ensures var r := Validate(schema, JObj(map[]));
      r.Some? && forall i :: 0 <= i < |schema| ==> r.value[schema[i].name] == schema[i].default
  {
    var r := Validate(schema, JObj(map[]));
    assert r.Some?;
    forall i | 0 <= i < |schema|
      ensures r.value[schema[i].name] == schema[i].default
    {
      assert r.value[schema[i].name] == FieldValue(schema[i], map[]);
    }
  }

  lemma {:induction false} SettingsModelsWellFormed()
    ensures WellFormed(WelcomerSettings) && WellFormed(LogSettings)
    ensures WellFormed(TicketSettings) && WellFormed(LevelSettings)
  {
    WelcomerSettingsWellFormed();
    assert WellFormed(LogSettings);
    assert WellFormed(TicketSettings);
    assert Accepts(OptIntObject, JNull);
  }

  lemma WelcomerSettingsWellFormed()
    ensures WellFormed(WelcomerSettings)
  {
  }

  /** `{"success": True, "data": entry}`. */
  function Saved(entry: Object): Json
  {
    JObj(map["success" := JBool(true), "data" := JObj(entry)])
  }

  /** `doc.get(guild_id)`, the read `GET /guild/{id}` makes of a settings
      document: the guild's entry, `None` (JSON null) for a guild without
      one, and a server error when the document is not a dict, which has no
      `.get`. */
  function SettingsOf(doc: Json, guildId: string): (r: Response)
    ensures r.ServerError? <==> !doc.JObj?
    ensures !r.Unprocessable?
    ensures doc.JObj? && guildId in doc.fields ==> r == Ok(doc.fields[guildId])
    ensures doc.JObj? && guildId !in doc.fields ==> r == Ok(JNull)
  {
    if !doc.JObj? then ServerError
    else if guildId in doc.fields then Ok(doc.fields[guildId])
    else Ok(JNull)
  }

  /** `doc[guild_id] = entry` replaces the whole entry of one guild. */
  lemma {:induction false} ReplaceThenRead(doc: Json, guildId: string, entry: Object, other: string)
    requires doc.JObj?
    ensures var after := JObj(doc.fields[guildId := JObj(entry)]);
      SettingsOf(after, guildId) == Ok(JObj(entry))
      && (other != guildId ==> SettingsOf(after, other) == SettingsOf(doc, other))
  {
  }

  /** The four settings documents and their files. */
  class SettingsStore {
    var welcomeData: Json
    var logData: Json
    var ticketsData: Json
    var levelSettingsData: Json

    ghost var welcomeFile: FileState<Json>
    ghost var logFile: FileState<Json>
    ghost var ticketsFile: FileState<Json>
    ghost var levelSettingsFile: FileState<Json>

    /** Module initialisation: each document is loaded once with no
        explicit default. */
    constructor (welcome: FileState<Json>, log: FileState<Json>, tickets: FileState<Json>,
                 levelSettings: FileState<Json>)
      ensures welcomeData == LoadJsonPy(welcome, None) && logData == LoadJsonPy(log, None)
      ensures ticketsData == LoadJsonPy(tickets, None)
      ensures levelSettingsData == LoadJsonPy(levelSettings, None)
      ensures welcomeFile == welcome && logFile == log
      ensures ticketsFile == tickets && levelSettingsFile == levelSettings
    {
      welcomeData := LoadJsonPy(welcome, None);
      logData := LoadJsonPy(log, None);
      ticketsData := LoadJsonPy(tickets, None);
      levelSettingsData := LoadJsonPy(levelSettings, None);
      welcomeFile := welcome;
      logFile := log;
      ticketsFile := tickets;
      levelSettingsFile := levelSettings;
    }

    /** `POST /guild/{id}/welcomer`. */
    method UpdateWelcomer(guildId: string, body: Json) returns (resp: Response)
      modifies this`welcomeData, this`welcomeFile
      ensures Validate(WelcomerSettings, body).None? ==>
        resp == Unprocessable && welcomeData == old(welcomeData) && welcomeFile == old(welcomeFile)
      ensures Validate(WelcomerSettings, body).Some? && !old(welcomeData).JObj? ==>
        resp == ServerError && welcomeData == old(welcomeData) && welcomeFile == old(welcomeFile)
      ensures Validate(WelcomerSettings, body).Some? && old(welcomeData).JObj? ==>
        var entry := Validate(WelcomerSettings, body).value;
        && welcomeData == JObj(old(welcomeData).fields[guildId := JObj(entry)])
        && welcomeFile == Parsed(welcomeData)
        && resp == Ok(Saved(entry))
    {
      var settings := Validate(WelcomerSettings, body);
      if settings.None? {
        return Unprocessable;
      }
      if !welcomeData.JObj? {
        return ServerError;
      }
      welcomeData := JObj(welcomeData.fields[guildId := JObj(settings.value)]);
      welcomeFile := Parsed(welcomeData);
      resp := Ok(Saved(welcomeData.fields[guildId].fields));
    }

    /** `POST /guild/{id}/log`. */
    method UpdateLog(guildId: string, body: Json) returns (resp: Response)
      modifies this`logData, this`logFile
      ensures Validate(LogSettings, body).None? ==>
        resp == Unprocessable && logData == old(logData) && logFile == old(logFile)
      ensures Validate(LogSettings, body).Some? && !old(logData).JObj? ==>
        resp == ServerError && logData == old(logData) && logFile == old(logFile)
      ensures Validate(LogSettings, body).Some? && old(logData).JObj? ==>
        var entry := Validate(LogSettings, body).value;
        && logData == JObj(old(logData).fields[guildId := JObj(entry)])
        && logFile == Parsed(logData)
        && resp == Ok(Saved(entry))
    {
      var settings := Validate(LogSettings, body);
      if settings.None? {
        return Unprocessable;
      }
      if !logData.JObj? {
        return ServerError;
      }
      logData := JObj(logData.fields[guildId := JObj(settings.value)]);
      logFile := Parsed(logData);
      resp := Ok(Saved(logData.fields[guildId].fields));
    }

    /** `POST /guild/{id}/tickets`. */
    method UpdateTickets(guildId: string, body: Json) returns (resp: Response)
      modifies this`ticketsData, this`ticketsFile
      ensures Validate(TicketSettings, body).None? ==>
        resp == Unprocessable && ticketsData == old(ticketsData) && ticketsFile == old(ticketsFile)
      ensures Validate(TicketSettings, body).Some? && !old(ticketsData).JObj? ==>
        resp == ServerError && ticketsData == old(ticketsData) && ticketsFile == old(ticketsFile)
      ensures Validate(TicketSettings, body).Some? && old(ticketsData).JObj? ==>
        var entry := Validate(TicketSettings, body).value;
        && ticketsData == JObj(old(ticketsData).fields[guildId := JObj(entry)])
        && ticketsFile == Parsed(ticketsData)
        && resp == Ok(Saved(entry))
    {
      var settings := Validate(TicketSettings, body);
      if settings.None? {
        return Unprocessable;
      }
      if !ticketsData.JObj? {
        return ServerError;
      }
      ticketsData := JObj(ticketsData.fields[guildId := JObj(settings.value)]);
      ticketsFile := Parsed(ticketsData);
      resp := Ok(Saved(ticketsData.fields[guildId].fields));
    }

    /** `POST /guild/{id}/levels`. */
    method UpdateLevels(guildId: string, body: Json) returns (resp: Response)
      modifies this`levelSettingsData, this`levelSettingsFile
      ensures Validate(LevelSettings, body).None? ==>
        resp == Unprocessable && levelSettingsData == old(levelSettingsData)
        && levelSettingsFile == old(levelSettingsFile)
      ensures Validate(LevelSettings, body).Some? && !old(levelSettingsData).JObj? ==>
        resp == ServerError && levelSettingsData == old(levelSettingsData)
        && levelSettingsFile == old(levelSettingsFile)
      ensures Validate(LevelSettings, body).Some? && old(levelSettingsData).JObj? ==>
        var entry := Validate(LevelSettings, body).value;
        && levelSettingsData == JObj(old(levelSettingsData).fields[guildId := JObj(entry)])
        && levelSettingsFile == Parsed(levelSettingsData)
        && resp == Ok(Saved(entry))
    {
      var settings := Validate(LevelSettings, body);
      if settings.None? {
        return Unprocessable;
      }
      if !levelSettingsData.JObj? {
        return ServerError;
      }
      levelSettingsData := JObj(levelSettingsData.fields[guildId := JObj(settings.value)]);
      levelSettingsFile := Parsed(levelSettingsData);
      resp := Ok(Saved(levelSettingsData.fields[guildId].fields));
    }
  }

  // ---------------------------------------------------------------------
  // Leaderboards

  const LeaderboardSize := 20

  /** `data.get(k, 0)` where the value takes part in arithmetic or ordering:
      an integer, a boolean (an int in Python), or 0 when missing; any other
      value makes the request fail. */
  function Number(data: Object, k: string): (r: Option<int>)
    ensures k !in data ==> r == Some(0)
    ensures k in data && data[k].JInt? ==> r == Some(data[k].n)
    ensures r.None? <==> k in data && !data[k].JInt? && !data[k].JBool?
  {
    if k !in data then Some(0)
    else match data[k]
      case JInt(n) => Some(n)
      case JBool(b) => Some(if b then 1 else 0)
      case _ => None
  }

  /** `data.get(k, 0)` copied into a row as it is. */
  function ValueOrZero(data: Object, k: string): Json
  {
    if k in data then data[k] else JInt(0)
  }

  /** `order` lists the keys of `m` once each, in the order the parsed
      document holds them (the order Python iterates a dict in). */
  predicate KeyOrder(order: seq<string>, m: Object)
  {
    (forall i, j :: 0 <= i < j < |order| ==> order[i] != order[j])
    && (forall k :: k in m ==> k in order)
    && (forall i :: 0 <= i < |order| ==> order[i] in m)
  }

  datatype EconomyRow = EconomyRow(userId: string, total: int, wallet: int, bank: int)

  datatype LevelsRow = LevelsRow(userId: string, level: Json, xp: Json, totalXp: int)

  function TotalOf(r: EconomyRow): int { r.total }

  function TotalXpOf(r: LevelsRow): int { r.totalXp }

  /** A user's economy record an economy row can be computed from. */
  predicate EconomyReadable(data: Json)
  {
    data.JObj? && Number(data.fields, "wallet").Some? && Number(data.fields, "bank").Some?
  }

  /** `row` is the economy row of user `uid` with record `data`. */
  predicate IsEconomyRow(row: EconomyRow, uid: string, data: Json)
  {
    && EconomyReadable(data)
    && row.userId == uid
    && row.wallet == Number(data.fields, "wallet").value
    && row.bank == Number(data.fields, "bank").value
    && row.total == row.wallet + row.bank
  }

  /** The economy rows in iteration order, with `total = wallet + bank`. */
  function EconomyRows(users: Object, order: seq<string>): (r: Option<seq<EconomyRow>>)
    requires forall i :: 0 <= i < |order| ==> order[i] in users
    ensures r.Some? <==> forall i :: 0 <= i < |order| ==> EconomyReadable(users[order[i]])
    ensures r.Some? ==> |r.value| == |order|
    ensures r.Some? ==> forall i :: 0 <= i < |order| ==> IsEconomyRow(r.value[i], order[i], users[order[i]])
    ensures r.Some? ==> forall row :: row in r.value ==> row.userId in users && row.total == row.wallet + row.bank
  {
    if order == [] then Some([])
    else
      var data := users[order[0]];
      var rest := EconomyRows(users, order[1..]);
      if !EconomyReadable(data) || rest.None? then None
      else
        var wallet := Number(data.fields, "wallet").value;
        var bank := Number(data.fields, "bank").value;
        Some([EconomyRow(order[0], wallet + bank, wallet, bank)] + rest.value)
  }

  /** A user's levels record a levels row can be computed from. */
  predicate LevelsReadable(data: Json)
  {
    data.JObj? && Number(data.fields, "totalXp").Some?
  }

  /** `row` is the levels row of user `uid` with record `data`. */
  predicate IsLevelsRow(row: LevelsRow, uid: string, data: Json)
  {
    && LevelsReadable(data)
    && row.userId == uid
    && row.level == ValueOrZero(data.fields, "level")
    && row.xp == ValueOrZero(data.fields, "xp")
    && row.totalXp == Number(data.fields, "totalXp").value
  }

  /** The levels rows in iteration order, keyed by `totalXp`. */
  function LevelsRows(users: Object, order: seq<string>): (r: Option<seq<LevelsRow>>)
    requires forall i :: 0 <= i < |order| ==> order[i] in users
    ensures r.Some? <==> forall i :: 0 <= i < |order| ==> LevelsReadable(users[order[i]])
    ensures r.Some? ==> |r.value| == |order|
    ensures r.Some? ==> forall i :: 0 <= i < |order| ==> IsLevelsRow(r.value[i], order[i], users[order[i]])
    ensures r.Some? ==> forall row :: row in r.value ==> row.userId in users
  {
    if order == [] then Some([])
    else
      var data := users[order[0]];
      var rest := LevelsRows(users, order[1..]);
      if !LevelsReadable(data) || rest.None? then None
      else
        Some([LevelsRow(order[0], ValueOrZero(data.fields, "level"), ValueOrZero(data.fields, "xp"),
                        Number(data.fields, "totalXp").value)] + rest.value)
  }

  /** `doc.get(guild_id, {})`: the guild's users, in iteration order, or
      `None` when the lookup or the iteration raises. */
  predicate GuildUsers(doc: Json, guildId: string, users: Object, order: seq<string>)
  {
    doc.JObj? && KeyOrder(order, users)
    && (guildId in doc.fields ==> doc.fields[guildId] == JObj(users))
    && (guildId !in doc.fields ==> users == map[])
  }

  /** Whether `doc.get(guild_id, {}).items()` succeeds. */
  predicate UsersReadable(doc: Json, guildId: string)
  {
    doc.JObj? && (guildId in doc.fields ==> doc.fields[guildId].JObj?)
  }

  /** `GET /guild/{id}/economy/leaderboard`. `users` and `order` are the
      guild's entry and its key order when the document can be read. */
  function EconomyLeaderboard(doc: Json, guildId: string, users: Object, order: seq<string>): (r: Response)
    requires UsersReadable(doc, guildId) ==> GuildUsers(doc, guildId, users, order)
    ensures r.ServerError? <==> !UsersReadable(doc, guildId) || EconomyRows(users, order).None?
    ensures r.Ok? ==> r.body == JObj(map["leaderboard" := JArr(EconomyJson(EconomyTop(users, order).value))])
    ensures !r.Unprocessable?
  {
    if !UsersReadable(doc, guildId) then ServerError
    else
      var top := EconomyTop(users, order);
      if top.None? then ServerError
      else Ok(JObj(map["leaderboard" := JArr(EconomyJson(top.value))]))
  }

  /** The rows as the JSON objects the endpoint returns. */
  function EconomyJson(rows: seq<EconomyRow>): (r: seq<Json>)
    ensures |r| == |rows|
    ensures forall i :: 0 <= i < |rows| ==> r[i] == JObj(map["userId" := JStr(rows[i].userId),
      "total" := JInt(rows[i].total), "wallet" := JInt(rows[i].wallet), "bank" := JInt(rows[i].bank)])
  {
    if rows == [] then []
    else
      var row := rows[0];
      [JObj(map["userId" := JStr(row.userId), "total" := JInt(row.total),
                "wallet" := JInt(row.wallet), "bank" := JInt(row.bank)])] + EconomyJson(rows[1..])
  }

  /** `GET /guild/{id}/levels/leaderboard`. */
  function LevelsLeaderboard(doc: Json, guildId: string, users: Object, order: seq<string>): (r: Response)
    requires UsersReadable(doc, guildId) ==> GuildUsers(doc, guildId, users, order)
    ensures r.ServerError? <==> !UsersReadable(doc, guildId) || LevelsRows(users, order).None?
    ensures r.Ok? ==> r.body == JObj(map["leaderboard" := JArr(LevelsJson(LevelsTop(users, order).value))])
    ensures !r.Unprocessable?
  {
    if !UsersReadable(doc, guildId) then ServerError
    else
      var top := LevelsTop(users, order);
      if top.None? then ServerError
      else Ok(JObj(map["leaderboard" := JArr(LevelsJson(top.value))]))
  }

  /** The rows as the JSON objects the endpoint returns. */
  function LevelsJson(rows: seq<LevelsRow>): (r: seq<Json>)
    ensures |r| == |rows|
    ensures forall i :: 0 <= i < |rows| ==> r[i] == JObj(map["userId" := JStr(rows[i].userId),
      "level" := rows[i].level, "xp" := rows[i].xp, "totalXp" := JInt(rows[i].totalXp)])
  {
    if rows == [] then []
    else
      var row := rows[0];
      [JObj(map["userId" := JStr(row.userId), "level" := row.level,
                "xp" := row.xp, "totalXp" := JInt(row.totalXp)])] + LevelsJson(rows[1..])
  }

  /** The rows the economy leaderboard shows. */
  function EconomyTop(users: Object, order: seq<string>): (r: Option<seq<EconomyRow>>)
    requires forall i :: 0 <= i < |order| ==> order[i] in users
    ensures r.Some? <==> EconomyRows(users, order).Some?
    ensures r.Some? ==> |r.value| == if |order| <= LeaderboardSize then |order| else LeaderboardSize
  {
    var rows := EconomyRows(users, order);
    if rows.None? then None else Some(Prefix(SortDesc(rows.value, TotalOf), LeaderboardSize))
  }

  /** The economy leaderboard shows at most 20 of the guild's users, richest
      first, taken from its rows; every user left out has no more than the
      last one shown. */
  lemma {:induction false} EconomyLeaderboardSpec(users: Object, order: seq<string>)
    requires KeyOrder(order, users)
    requires EconomyRows(users, order).Some?
    ensures |EconomyTop(users, order).value| == if |order| <= LeaderboardSize then |order| else LeaderboardSize
    ensures SortedDesc(EconomyTop(users, order).value, TotalOf)
    ensures multiset(EconomyTop(users, order).value) <= multiset(EconomyRows(users, order).value)
    ensures var rows := EconomyRows(users, order).value; var top := EconomyTop(users, order).value;
      forall i, j :: 0 <= i < |top| && |top| <= j < |rows| ==> top[i].total >= SortDesc(rows, TotalOf)[j].total
  {
    var rows := EconomyRows(users, order).value;
    assert EconomyTop(users, order).value == Prefix(SortDesc(rows, TotalOf), LeaderboardSize);
    TopKeepsLargest(rows, TotalOf, LeaderboardSize);
  }

  /** Every row shown belongs to a user of the guild, and its total is wallet plus bank. */
  lemma {:induction false} EconomyLeaderboardRows(users: Object, order: seq<string>)
    requires KeyOrder(order, users)
    requires EconomyRows(users, order).Some?
    ensures forall r :: r in EconomyTop(users, order).value ==> r.userId in users && r.total == r.wallet + r.bank
  {
    var rows := EconomyRows(users, order).value;
    var top := EconomyTop(users, order).value;
    assert top == Prefix(SortDesc(rows, TotalOf), LeaderboardSize);
    TopKeepsLargest(rows, TotalOf, LeaderboardSize);
    forall r | r in top
      ensures r.userId in users && r.total == r.wallet + r.bank
    {
      assert r in multiset(rows);
    }
  }

  /** Users with equal totals keep the document's order. */
  lemma {:induction false} EconomyLeaderboardStable(users: Object, order: seq<string>)
    requires KeyOrder(order, users)
    requires EconomyRows(users, order).Some?
    ensures var rows := EconomyRows(users, order).value;
      forall k :: WithKey(SortDesc(rows, TotalOf), TotalOf, k) == WithKey(rows, TotalOf, k)
  {
    SortIsStableForAllKeys(EconomyRows(users, order).value, TotalOf);
  }

  /** The rows the levels leaderboard shows. */
  function LevelsTop(users: Object, order: seq<string>): (r: Option<seq<LevelsRow>>)
    requires forall i :: 0 <= i < |order| ==> order[i] in users
    ensures r.Some? <==> LevelsRows(users, order).Some?
    ensures r.Some? ==> |r.value| == if |order| <= LeaderboardSize then |order| else LeaderboardSize
  {
    var rows := LevelsRows(users, order);
    if rows.None? then None else Some(Prefix(SortDesc(rows.value, TotalXpOf), LeaderboardSize))
  }

  /** The levels leaderboard shows at most 20 of the guild's users, most
      total XP first, taken from its rows; every user left out has no more
      than the last one shown. */
  lemma {:induction false} LevelsLeaderboardSpec(users: Object, order: seq<string>)
    requires KeyOrder(order, users)
    requires LevelsRows(users, order).Some?
    ensures |LevelsTop(users, order).value| == if |order| <= LeaderboardSize then |order| else LeaderboardSize
    ensures SortedDesc(LevelsTop(users, order).value, TotalXpOf)
    ensures multiset(LevelsTop(users, order).value) <= multiset(LevelsRows(users, order).value)
    ensures var rows := LevelsRows(users, order).value; var top := LevelsTop(users, order).value;
      forall i, j :: 0 <= i < |top| && |top| <= j < |rows| ==> top[i].totalXp >= SortDesc(rows, TotalXpOf)[j].totalXp
  {
    var rows := LevelsRows(users, order).value;
    assert LevelsTop(users, order).value == Prefix(SortDesc(rows, TotalXpOf), LeaderboardSize);
    TopKeepsLargest(rows, TotalXpOf, LeaderboardSize);
  }

  /** Every row shown belongs to a user of the guild. */
  lemma {:induction false} LevelsLeaderboardRows(users: Object, order: seq<string>)
    requires KeyOrder(order, users)
    requires LevelsRows(users, order).Some?
    ensures forall r :: r in LevelsTop(users, order).value ==> r.userId in users
  {
    var rows := LevelsRows(users, order).value;
    var top := LevelsTop(users, order).value;
    assert top == Prefix(SortDesc(rows, TotalXpOf), LeaderboardSize);
    TopKeepsLargest(rows, TotalXpOf, LeaderboardSize);
    forall r | r in top
      ensures r.userId in users
    {
      assert r in multiset(rows);
    }
  }

  /** Users with equal totals keep the document's order. */
  lemma {:induction false} LevelsLeaderboardStable(users: Object, order: seq<string>)
    requires KeyOrder(order, users)
    requires LevelsRows(users, order).Some?
    ensures var rows := LevelsRows(users, order).value;
      forall k :: WithKey(SortDesc(rows, TotalXpOf), TotalXpOf, k) == WithKey(rows, TotalXpOf, k)
  {
    SortIsStableForAllKeys(LevelsRows(users, order).value, TotalXpOf);
  }

  // ---------------------------------------------------------------------
  // Administrator filter

  /** A guild of the logged-in user as the platform lists it; `permissions`
      is the integer its permission string parses to (0 when absent). */
  datatype UserGuild = UserGuild(id: string, name: string, icon: Option<string>, permissions: int)

  datatype GuildCard = GuildCard(id: string, name: string, icon: Option<string>, hasBot: bool)

  const Administrator := 0x8

  /** `permissions & 0x8 == 0x8` on Python's unbounded two's-complement
      integers: bit 3 is set. */
  predicate IsAdmin(permissions: int): (b: bool)
    ensures b <==> permissions % 16 >= 8
  {
    var q, r := permissions / 16, permissions % 16;
    assert permissions == 16 * q + r;
    assert permissions / Administrator == 2 * q + r / 8;
    (permissions / Administrator) % 2 == 1
  }

  /** For a non-negative value the bit test is the usual one on its low
      four bits, and it repeats every 16. */
  lemma {:induction false} AdminBitLowNibble(p: int)
    ensures IsAdmin(p) <==> p % 16 >= 8
    ensures IsAdmin(p) <==> IsAdmin(p + 16)
  {
    var q, r := p / 16, p % 16;
    assert p == 16 * q + r;
    assert p / 8 == 2 * q + r / 8;
    assert (p + 16) / 8 == 2 * (q + 1) + r / 8;
  }

  /** The admin guilds, in the order listed. */
  function AdminGuilds(guilds: seq<UserGuild>): (r: seq<UserGuild>)
    ensures forall g :: g in r <==> g in guilds && IsAdmin(g.permissions)
    ensures |r| <= |guilds|
  {
    if guilds == [] then []
    else (if IsAdmin(guilds[0].permissions) then [guilds[0]] else []) + AdminGuilds(guilds[1..])
  }

  /** The filter keeps the relative order of the guilds it keeps. */
  lemma {:induction false} AdminGuildsAppend(a: seq<UserGuild>, b: seq<UserGuild>)
    ensures AdminGuilds(a + b) == AdminGuilds(a) + AdminGuilds(b)
    decreases |a|
  {
    if a != [] {
      assert (a + b)[0] == a[0] && (a + b)[1..] == a[1..] + b;
      AdminGuildsAppend(a[1..], b);
      var head := if IsAdmin(a[0].permissions) then [a[0]] else [];
      calc {
        AdminGuilds(a + b);
        head + AdminGuilds(a[1..] + b);
        head + (AdminGuilds(a[1..]) + AdminGuilds(b));
        (head + AdminGuilds(a[1..])) + AdminGuilds(b);
      }
    } else {
      assert a + b == b;
    }
  }

  /** The guild list the login answers with. */
  function GuildCards(guilds: seq<UserGuild>): (r: seq<GuildCard>)
    ensures |r| == |guilds|
    ensures forall i :: 0 <= i < |guilds| ==>
      r[i].id == guilds[i].id && r[i].name == guilds[i].name && r[i].icon == guilds[i].icon && r[i].hasBot
  {
    if guilds == [] then []
    else [GuildCard(guilds[0].id, guilds[0].name, guilds[0].icon, true)] + GuildCards(guilds[1..])
  }

  // ---------------------------------------------------------------------
  // Command count

  datatype Category = Category(key: string, name: string, count: int)

  const CommandCategories: seq<Category> := [
    Category("moderation", "Moderazione", 11),
    Category("economy", "Economia", 12),
    Category("fun", "Fun", 12),
    Category("utility", "Utility", 13),
    Category("tickets", "Tickets", 5),
    Category("giveaway", "Giveaway", 3),
    Category("levels", "Livelli", 5),
    Category("admin", "Admin", 8)
  ]

  /** `sum(cat["count"] for cat in categories)`. */
  function TotalCommands(cats: seq<Category>): (total: int)
    ensures (forall i :: 0 <= i < |cats| ==> cats[i].count >= 0) ==> total >= 0
    ensures (forall i :: 0 <= i < |cats| ==> cats[i].count >= 0) ==>
      forall i :: 0 <= i < |cats| ==> cats[i].count <= total
  {
    if cats == [] then 0 else cats[0].count + TotalCommands(cats[1..])
  }

  /** The sum splits over any division of the table, so the order the
      categories are listed in does not matter. */
  lemma {:induction false} TotalCommandsAppend(a: seq<Category>, b: seq<Category>)
    ensures TotalCommands(a + b) == TotalCommands(a) + TotalCommands(b)
    decreases |a|
  {
    if a != [] {
      assert (a + b)[0] == a[0] && (a + b)[1..] == a[1..] + b;
      TotalCommandsAppend(a[1..], b);
      assert TotalCommands(a + b) == a[0].count + TotalCommands(a[1..] + b);
    } else {
      assert a + b == b;
    }
  }

  /** The fixed table counts 69 commands. */
  lemma FixedTableTotal()
    ensures TotalCommands(CommandCategories) == 69
  {
  }
}
