/** Per-tenant integration settings (`integrationConfigService`): a read by `user_id`, a
    partial update that writes only the fields the caller defined, and the insert of a
    tenant's default row. */
module IntegrationConfig {
  import opened Util
  import opened Db

  /** The writable columns of `integration_settings`. */
  datatype SettingColumn = PostbackSecret | RastreioApiKey | WebhookUrl

  function SettingName(c: SettingColumn): string
  {
    match c
    case PostbackSecret => "postback_secret"
    case RastreioApiKey => "rastreio_api_key"
    case WebhookUrl => "webhook_url"
  }

  /** The `fields` argument: `None` is undefined, `Some(None)` is null. */
  datatype Fields = Fields(postbackSecret: Option<Option<string>>, rastreioApiKey: Option<Option<string>>,
                           webhookUrl: Option<Option<string>>)

  /** One `column = ?` assignment of the UPDATE applied to a row. */
  function SetColumn(s: IntegrationSetting, c: SettingColumn, v: Option<string>): IntegrationSetting
  {
    match c
    case PostbackSecret => s.(postbackSecret := v)
    case RastreioApiKey => s.(rastreioApiKey := v)
    case WebhookUrl => s.(webhookUrl := v)
  }

  /** The SET list applied left to right. */
  function Execute(s: IntegrationSetting, cols: seq<SettingColumn>, vals: seq<Option<string>>): IntegrationSetting
    requires |cols| == |vals|
    decreases |cols|
  {
    if cols == [] then s else Execute(SetColumn(s, cols[0], vals[0]), cols[1..], vals[1..])
  }

  /** The row as the caller asked for it: each defined field replaced, null included. */
  function Updated(s: IntegrationSetting, fields: Fields): IntegrationSetting
  {
    s.(postbackSecret := if fields.postbackSecret.Some? then fields.postbackSecret.value else s.postbackSecret,
       rastreioApiKey := if fields.rastreioApiKey.Some? then fields.rastreioApiKey.value else s.rastreioApiKey,
       webhookUrl := if fields.webhookUrl.Some? then fields.webhookUrl.value else s.webhookUrl)
  }

  predicate NoneDefined(fields: Fields)
  {
    fields.postbackSecret.None? && fields.rastreioApiKey.None? && fields.webhookUrl.None?
  }

  /** `updateConfig(db, userId, fields)`: nothing runs when no field is defined and the call
      resolves with nothing (`Ok(None)`); otherwise one UPDATE of the tenant's row, resolving
      with `{ changes }` (`Ok(Some(changes))`), the count of matched rows as the driver wrapper
      reports it. */
  function Update(settings: map<int, IntegrationSetting>, userId: int, fields: Fields, fails: bool, postgres: bool)
    : (Result<Option<Option<nat>>>, map<int, IntegrationSetting>)
  {
    if NoneDefined(fields) then (Ok(None), settings)
    else if fails then (Err(StorageError), settings)
    else if userId in settings then (Ok(Some(Reported(postgres, 1))), settings[userId := Updated(settings[userId], fields)])
    else (Ok(Some(Reported(postgres, 0))), settings)
  }

  /** `getConfig(db, userId)`: the row, or nothing. */
  method GetConfig(db: Database, userId: int) returns (r: Result<Option<IntegrationSetting>>)
    ensures IntegrationSettings in db.readFails ==> r == Err(StorageError)
    ensures IntegrationSettings !in db.readFails ==>
      r == Ok(if userId in db.integrationSettings then Some(db.integrationSettings[userId]) else None)
  {
    if IntegrationSettings in db.readFails {
      return Err(StorageError);
    }
    if userId in db.integrationSettings {
      return Ok(Some(db.integrationSettings[userId]));
    }
    return Ok(None);
  }

  /** `updateConfig(db, userId, fields)`: the SET list is pushed field by field, then run. */
  method UpdateConfig(db: Database, userId: int, fields: Fields) returns (r: Result<Option<Option<nat>>>)
    modifies db`integrationSettings
    ensures (r, db.integrationSettings) ==
      Update(old(db.integrationSettings), userId, fields, IntegrationSettings in db.writeFails, db.postgres)
  {
    var sets: seq<SettingColumn> := [];
    var params: seq<Option<string>> := [];
    if fields.postbackSecret.Some? {
      sets := sets + [PostbackSecret];
      params := params + [fields.postbackSecret.value];
    }
    if fields.rastreioApiKey.Some? {
      sets := sets + [RastreioApiKey];
      params := params + [fields.rastreioApiKey.value];
    }
    if fields.webhookUrl.Some? {
      sets := sets + [WebhookUrl];
      params := params + [fields.webhookUrl.value];
    }
    if sets == [] {
      return Ok(None);
    }
    if IntegrationSettings in db.writeFails {
      return Err(StorageError);
    }
    if userId !in db.integrationSettings {
      return Ok(Some(Reported(db.postgres, 0)));
    }
    ExecuteAssignments(db.integrationSettings[userId], fields, sets, params);
    db.integrationSettings := db.integrationSettings[userId := Execute(db.integrationSettings[userId], sets, params)];
    return Ok(Some(Reported(db.postgres, 1)));
  }

  /** The key constraint on `integration_settings.user_id`. */
  const DuplicateUser := "UNIQUE constraint failed: integration_settings.user_id"

  /** PostgreSQL's refusal of a settings row whose primary key `user_id` is NULL. */
  const NullUserId := "null value in column \"user_id\" of relation \"integration_settings\" violates not-null constraint"

  /** The row `createDefault` inserts: the deployment's default tracking key when one is set. */
  function DefaultRow(defaultKey: Option<string>): IntegrationSetting
  {
    IntegrationSetting(None, if Truthy(defaultKey) then defaultKey else None, None)
  }

  /** `createDefault(db, userId)`; `defaultKey` is `SITERASTREIO_API_KEY` from the
      environment. Both the transactional and the plain path perform this one INSERT. */
  method CreateDefault(db: Database, userId: int, defaultKey: Option<string>) returns (r: Outcome)
    requires db.Valid()
    modifies db`integrationSettings
    ensures db.Valid()
    ensures IntegrationSettings in db.writeFails ==> r == Fail(StorageError) && db.integrationSettings == old(db.integrationSettings)
    ensures IntegrationSettings !in db.writeFails && userId in old(db.integrationSettings) ==>
      r == Fail(DuplicateUser) && db.integrationSettings == old(db.integrationSettings)
    ensures IntegrationSettings !in db.writeFails && userId !in old(db.integrationSettings) ==>
      r == Pass && db.integrationSettings == old(db.integrationSettings)[userId := DefaultRow(defaultKey)]
  {
    if IntegrationSettings in db.writeFails {
      return Fail(StorageError);
    }
    if userId in db.integrationSettings {
      return Fail(DuplicateUser);
    }
    db.integrationSettings := db.integrationSettings[userId := DefaultRow(defaultKey)];
    return Pass;
  }

  // ---- Properties ----

  /** The pushed SET list, executed, is the row the caller asked for. */
  lemma ExecuteAssignments(s: IntegrationSetting, fields: Fields, cols: seq<SettingColumn>, vals: seq<Option<string>>)
    requires cols == (if fields.postbackSecret.Some? then [PostbackSecret] else [])
                   + (if fields.rastreioApiKey.Some? then [RastreioApiKey] else [])
                   + (if fields.webhookUrl.Some? then [WebhookUrl] else [])
    requires vals == (if fields.postbackSecret.Some? then [fields.postbackSecret.value] else [])
                   + (if fields.rastreioApiKey.Some? then [fields.rastreioApiKey.value] else [])
                   + (if fields.webhookUrl.Some? then [fields.webhookUrl.value] else [])
    ensures |cols| == |vals| && Execute(s, cols, vals) == Updated(s, fields)
  {
    var s1 := if fields.postbackSecret.Some? then s.(postbackSecret := fields.postbackSecret.value) else s;
    var s2 := if fields.rastreioApiKey.Some? then s1.(rastreioApiKey := fields.rastreioApiKey.value) else s1;
    var c2 := (if fields.rastreioApiKey.Some? then [RastreioApiKey] else []) + (if fields.webhookUrl.Some? then [WebhookUrl] else []);
    var v2 := (if fields.rastreioApiKey.Some? then [fields.rastreioApiKey.value] else []) + (if fields.webhookUrl.Some? then [fields.webhookUrl.value] else []);
    var c3 := if fields.webhookUrl.Some? then [WebhookUrl] else [];
    var v3 := if fields.webhookUrl.Some? then [fields.webhookUrl.value] else [];
    assert Execute(s, cols, vals) == Execute(s1, c2, v2) by {
      if fields.postbackSecret.Some? {
        assert cols[1..] == c2 && vals[1..] == v2;
      } else {
        assert cols == c2 && vals == v2;
      }
    }
    assert Execute(s1, c2, v2) == Execute(s2, c3, v3) by {
      if fields.rastreioApiKey.Some? {
        assert c2[1..] == c3 && v2[1..] == v3;
      } else {
        assert c2 == c3 && v2 == v3;
      }
    }
    var s3 := if fields.webhookUrl.Some? then s2.(webhookUrl := fields.webhookUrl.value) else s2;
    assert Execute(s2, c3, v3) == s3 by {
      if fields.webhookUrl.Some? {
        assert c3[1..] == [] && v3[1..] == [];
      }
    }
    assert s3 == Updated(s, fields);
  }

  /** With no field defined, `updateConfig` runs nothing and changes nothing. */
  lemma UpdateWithoutFieldsIsNoOp(settings: map<int, IntegrationSetting>, userId: int, fields: Fields, fails: bool, postgres: bool)
    requires NoneDefined(fields)
    ensures Update(settings, userId, fields, fails, postgres) == (Ok(None), settings)
  {
  }

  /** `updateConfig` changes only the tenant's row and, in it, only the defined fields, to
      the given values (null included). */
  lemma UpdateOnlyGivenFields(settings: map<int, IntegrationSetting>, userId: int, fields: Fields, fails: bool, postgres: bool, other: int)
    requires userId in settings && !NoneDefined(fields) && !fails
    ensures var after := Update(settings, userId, fields, fails, postgres).1;
      && after.Keys == settings.Keys
      && (other != userId && other in settings ==> after[other] == settings[other])
      && (fields.postbackSecret.Some? ==> after[userId].postbackSecret == fields.postbackSecret.value)
      && (fields.postbackSecret.None? ==> after[userId].postbackSecret == settings[userId].postbackSecret)
      && (fields.rastreioApiKey.Some? ==> after[userId].rastreioApiKey == fields.rastreioApiKey.value)
      && (fields.rastreioApiKey.None? ==> after[userId].rastreioApiKey == settings[userId].rastreioApiKey)
      && (fields.webhookUrl.Some? ==> after[userId].webhookUrl == fields.webhookUrl.value)
      && (fields.webhookUrl.None? ==> after[userId].webhookUrl == settings[userId].webhookUrl)
  {
  }

  /** `updateConfig` is idempotent: writing the same fields twice equals writing them once. */
  lemma UpdateIdempotent(settings: map<int, IntegrationSetting>, userId: int, fields: Fields, fails: bool, postgres: bool)
    ensures var once := Update(settings, userId, fields, fails, postgres).1;
      Update(once, userId, fields, fails, postgres).1 == once
  {
  }
}
