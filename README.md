# A Dafny model of the order-tracking WhatsApp backend

This project models the rule layer of a multi-tenant service. The service keeps e-commerce orders (`pedidos`), follows their parcels with a tracking service, and writes to customers over WhatsApp. The model covers:

- when an order gets which automatic message (welcome, shipped, status changes), and how a template is filled in from the order;
- the two conversation-flow engines and the saving of a flow's node graph;
- the tracking poll policy and the row update after a poll;
- the phone-number normaliser that keys orders per tenant;
- the order, subscription, user, integration-settings and plan stores;
- the classification of incoming media;
- the WhatsApp gateway helpers;
- the websocket registry of live observers.

The SQL tables are fields of one `Db.Database` object. Each service function that takes `db` is a method that modifies it. Every call into a WhatsApp client, every pause and every live-update callback is appended to one ordered trace, `Wire.Outbox.events`.

Failures of the outside world are fixed oracles:

- the set of tables whose reads or writes fail (`readFails`, `writeFails`);
- the requests a WhatsApp client rejects (`refuses`);
- write rejections in the flow tables (`rejects`).

Where a method loops or changes state step by step, it is proved equal to a pure specification function of the old state. The properties the service promises are proved as lemmas about those functions.

| module (file) | source |
|---|---|
| `Util` (util.dfy), `Db` (db.dfy), `Wire` (wire.dfy) | shared: JavaScript truthiness, strings, the tables, the outbox |
| `DefaultMessages` (default_messages.dfy) | src/constants/defaultMessages.js |
| `Telefone` (telefone.dfy) | src/utils/normalizeTelefone.js |
| `Template` (template.dfy), `EnvioPassos` (envio_passos.dfy), `Envio` (envio.dfy), `EnvioScenarios` (envio_scenarios.dfy) | src/controllers/envioController.js |
| `Automations` (automations.dfy) | src/services/automationService.js |
| `Pedidos` (pedidos.dfy) | src/services/pedidoService.js |
| `Subscriptions` (subscriptions.dfy) | src/services/subscriptionService.js |
| `Users` (users.dfy) | src/services/userService.js |
| `IntegrationConfig` (integration_config.dfy) | src/services/integrationConfigService.js |
| `Plans` (plans.dfy) | src/services/planService.js |
| `Rastreamento` (rastreamento.dfy) | src/controllers/rastreamentoController.js |
| `FlowService` (flow_service.dfy) | src/services/flowService.js |
| `OrderFlow` (flow_engine_order.dfy) | src/services/flows/flowEngineService.js |
| `PhoneFlow` (flow_engine_phone.dfy) | src/flows/flowEngineService.js |
| `MessageUtils` (message_utils.dfy) | src/utils/messageUtils.js |
| `WhatsApp` (whatsapp.dfy) | src/services/whatsappService.js |
| `Websocket` (websocket.dfy) | src/websocket.js |

Some behaviour of the code is odd, and some of it looks unintended; the model keeps it as written. Each case is stated as a lemma:

- the rule-3 marker keeps spaces while the template key uses `_` (`Envio.RuleThreeKeyDiffersFromMarker`, `Envio.StatusMarkerReopensRuleTwo`);
- a throw ends the whole dispatch sweep (`Envio.AbortEndsSweep`);
- flow references are 0-based positions (`FlowService.PositionalReferences`);
- the `postado` day count is in 24-hour periods (`Rastreamento.PostedCountsPeriodsNotDays`);
- a number with area code 55 written without the country code is rejected (`Telefone.AreaCode55WithoutCountryCodeRejected`).

## Model

| member | source | states |
|---|---|---|
| `Util.Lower` | src/controllers/envioController.js:116 | `toLowerCase` keeps the length and lower-cases each character on its own |
| `Util.UnderscoreWhitespace` | src/controllers/envioController.js:117 | `replace(/\s/g, '_')` keeps the length, turns every whitespace character into `_` and keeps every other |
| `Util.ReplaceAllAbsent` | src/controllers/envioController.js:71-83 | a global replace of a pattern that does not occur leaves the string unchanged |
| `Db.Database.AddLog` | src/services/logService.js:4-17 | one row appended to `logs` with the tenant, action and detail, or a rejection that leaves the table as it was |
| `Db.InsertedId` | src/database/database.js:12-15 | the `lastID` an INSERT callback sees: the new rowid on SQLite, and undefined on Postgres, whose metadata has neither `lastID` nor `insertId` and whose INSERT returns no row without `RETURNING id` |
| `Db.Reported` | src/database/database.js:12-15 | the `changes` a statement callback sees: always undefined on SQLite, whose driver metadata has neither `rowCount` nor `affectedRows`; on Postgres the row count when it is positive, and undefined for 0 |
| `DefaultMessages.Default` | src/constants/defaultMessages.js:1-10 | a key has a default template exactly when it is one of the seven table keys, and that template is the table's non-empty text |
| `DefaultMessages.TableKeys` | src/constants/defaultMessages.js:1-10 | the table's keys are exactly the seven listed triggers, pairwise distinct, and no template is empty |
| `DefaultMessages.SevenKeys` | src/constants/defaultMessages.js:1-10 | the table holds exactly seven entries |
| `DefaultMessages.TrackingKeysAreTheRest` | src/constants/defaultMessages.js:3-9 | the triggers other than `boas_vindas` are exactly the six tracking triggers |
| `DefaultMessages.EveryTemplateHasFirstName` | src/constants/defaultMessages.js:2-9 | every default template contains the `{{primeiro_nome}}` token |
| `DefaultMessages.ShippingTemplatesHaveCode` | src/constants/defaultMessages.js:3-6 | the four shipping templates contain the `{{codigo_rastreio}}` token |
| `Telefone.DigitsOnlyIsDigits` | src/utils/normalizeTelefone.js:10 | stripping non-digits leaves only digits and never lengthens the text |
| `Telefone.Normalize` | src/utils/normalizeTelefone.js:7-37 | a falsy input gives null; any non-null result is 13 digits starting with `55` |
| `Telefone.NormalizeCases` | src/utils/normalizeTelefone.js:13-36 | a result exists exactly when the local part (after one leading `55` is stripped) has 11 digits, or 10 digits with the subscriber number starting with 6-9; the 10-digit case gains a `9` after the area code and the 11-digit case passes through behind `55` |
| `Telefone.NormalizeIdempotent` | src/utils/normalizeTelefone.js:7-37 | normalising a normalised number gives it back |
| `Telefone.AreaCode55WithoutCountryCodeRejected` | src/utils/normalizeTelefone.js:13-20 | a number with area code 55 written without the country code is rejected, because the DDD itself is stripped as `55` |
| `Telefone.NormalizeBareMobile` | src/utils/normalizeTelefone.js:13-36 | eleven bare digits that do not start with 55 gain the country code unchanged otherwise |
| `Telefone.NormalizeCanonicalFixed` | src/utils/normalizeTelefone.js:13-36 | a canonical number is its own normalisation |
| `Telefone.SameDigitsSameResult` | src/utils/normalizeTelefone.js:10 | two inputs with the same digits normalise alike: punctuation and blanks do not matter |
| `Telefone.SeparatorsIgnored` | src/utils/normalizeTelefone.js:10 | non-digit separators between digit groups are dropped |
| `Telefone.BareAndCanonicalExamples` | tests/normalizeTelefone.test.js:8-9 | `11987654321` and `5511987654321` both give `5511987654321` |
| `Telefone.SpacedExample` | tests/normalizeTelefone.test.js:6 | `11 98765-4321` gives the same result as its bare digits |
| `Telefone.ParenthesisedExample` | tests/normalizeTelefone.test.js:7 | `(11)98765-4321` gives the same result as its bare digits |
| `Telefone.ShortExample` | tests/normalizeTelefone.test.js:13 | `12345` is too short and gives null |
| `Plans.EnsureFreePlan` | src/services/planService.js:1-33 | a failing lookup is rethrown with the catalogue unchanged; an existing plan 1 is left as it is; a missing one is inserted as 'Grátis', price 0, limit 10, no checkout URL, unless the insert fails, which is rethrown |
| `Plans.EnsuredProperties` | src/services/planService.js:13-28 | after seeding, plan 1 exists, every plan that existed is unchanged, no other plan appears, and seeding twice is seeding once |
| `Plans.FindPlanByName` | src/services/planService.js:37-48 | a failing query rejects; otherwise the result is a stored plan with that name, or nothing exactly when no plan has that name |
| `IntegrationConfig.GetConfig` | src/services/integrationConfigService.js:1-8 | a failing query rejects; otherwise the tenant's row, or nothing when the tenant has none |
| `IntegrationConfig.UpdateConfig` | src/services/integrationConfigService.js:10-34 | the SET list pushed field by field and run is the update `Update` describes: nothing at all when no field is defined, a rejection when the write fails, otherwise the tenant's row rewritten and a `changes` count of one matched row or none, as the driver wrapper reports it (`Db.Reported`: undefined on SQLite, undefined for 0 rows on Postgres) |
| `IntegrationConfig.ExecuteAssignments` | src/services/integrationConfigService.js:11-27 | running the pushed `column = ?` assignments in order sets exactly the defined fields to the given values |
| `IntegrationConfig.UpdateWithoutFieldsIsNoOp` | src/services/integrationConfigService.js:25 | with no field defined the call resolves with nothing and changes nothing, whether or not the database would fail |
| `IntegrationConfig.UpdateOnlyGivenFields` | src/services/integrationConfigService.js:13-27 | an update touches only the tenant's row and, in it, only the defined fields, to the given values with null included |
| `IntegrationConfig.UpdateIdempotent` | src/services/integrationConfigService.js:10-34 | applying the same fields twice leaves the table as applying them once |
| `IntegrationConfig.CreateDefault` | src/services/integrationConfigService.js:37-60 | a failing insert rejects and a tenant that already has a row violates the key; otherwise the tenant gains one row whose tracking key is the deployment default when that is set |
| `Subscriptions.IncrementUsage` | src/services/subscriptionService.js:17-24 | a failing write rejects with the table unchanged; otherwise the table is that of `usage = usage + 1` on the row with that id, and the call resolves with the count of matched rows as the driver wrapper reports it (`Db.Reported`: undefined on SQLite, undefined for 0 rows on Postgres) |
| `Subscriptions.DecrementUsage` | src/services/subscriptionService.js:113-121 | on Postgres the call always rejects with the table unchanged, since the two-argument scalar `MAX` is SQLite's and PostgreSQL has only the aggregate; on SQLite a failing write rejects with the table unchanged, otherwise the table is that of `usage = MAX(0, usage - 1)` on that row, and the call resolves with the count of matched rows as the driver wrapper reports it (`Db.Reported`: undefined on SQLite, undefined for 0 rows on Postgres) |
| `Subscriptions.SetUsageKeepsUsers` | src/services/subscriptionService.js:19 | a usage update changes only the usage of the named row, matches one row exactly when that row exists, and keeps subscribers unique |
| `Subscriptions.IncrementAddsOne` | src/services/subscriptionService.js:19 | `incrementUsage` adds exactly one to the usage of the one row it matches |
| `Subscriptions.DecrementFloorsAtZero` | src/services/subscriptionService.js:115-116 | `decrementUsage` never leaves usage below zero: a positive usage loses one, a zero usage stays zero |
| `Subscriptions.RefundUndoesUse` | src/services/subscriptionService.js:17-24 | on a non-negative counter, a refund after a use restores the table it started from |
| `Subscriptions.ResetUsageIfNeeded` | src/services/subscriptionService.js:29-71 | a failing read rejects with nothing changed; a missing subscription or one not yet due changes nothing; otherwise the call resolves: the two UPDATEs run between BEGIN and COMMIT without a callback, so each table whose write works becomes its part of the `Rollover` of the old tables and a table whose write fails keeps its rows |
| `Subscriptions.ResetChecksValid` | src/services/subscriptionService.js:63 | zeroing `checkCount` keeps every invariant of the order table (increasing ids, one phone per tenant, column kinds) |
| `Subscriptions.NotDueChangesNothing` | src/services/subscriptionService.js:37-42 | a subscription whose renewal date is set and not before now, or a missing one, leaves both tables unchanged |
| `Subscriptions.RolloverResets` | src/services/subscriptionService.js:44-69 | a due rollover sets usage 0 and the renewal date to the next month's day start, keeps the rest of the subscription and every other subscription, zeroes `checkCount` of exactly the subscriber's orders and changes no other column |
| `Subscriptions.RolloverNotDueAgain` | src/services/subscriptionService.js:37-44 | after a rollover the subscription is not due again before its new renewal day |
| `Subscriptions.UpdateUserPlan` | src/services/subscriptionService.js:89-100 | a failing write rejects with nothing changed; otherwise the table is the upsert on `user_id` and the call reports `changes` for its one written row as the driver wrapper reports it (`Db.Reported`: undefined on SQLite, undefined for 0 rows on Postgres) and the id of the user's subscription row: the new row's id after an insert, the conflicting row's id after an update |
| `Subscriptions.UpsertUpdatesConflictingRow` | src/services/subscriptionService.js:92-94 | when the user already has a subscription, the upsert rewrites that row only, to the plan, active, usage 0 and no renewal date, and inserts nothing |
| `Subscriptions.UpsertKeepsOnePerUser` | src/services/subscriptionService.js:92-94 | after the upsert the user has exactly one subscription, on the plan, active, usage 0, no renewal date; other subscribers' rows are kept and no row appears for them; ids stay below the next id |
| `Subscriptions.UpsertIdempotent` | src/services/subscriptionService.js:92-94 | switching to the same plan twice is switching once |
| `Subscriptions.UpdateSubscriptionStatus` | src/services/subscriptionService.js:102-109 | a failing write rejects with the table unchanged; otherwise the user's subscription takes the status and the call resolves with the count of matched rows (one when the user has a subscription, else none) as the driver wrapper reports it (`Db.Reported`: undefined on SQLite, undefined for 0 rows on Postgres) |
| `Subscriptions.StatusOnlyChangesStatus` | src/services/subscriptionService.js:104 | the status update changes only the status, and only of that user's subscription |
| `Users.UpdateUser` | src/services/userService.js:136-169 | the SET list pushed field by field and run is the update `Update` describes: nothing when no assignment is pushed, a rejection when the write fails or the email belongs to another user, otherwise row `id` rewritten, resolving with a `changes` count of one matched row, or none when the row is missing, as the driver wrapper reports it (`Db.Reported`: undefined on SQLite, undefined for 0 rows on Postgres) |
| `Users.PushAssignments` | src/services/userService.js:137-159 | the pushes form exactly the SET list for the given fields, in source order, and that list is empty exactly when no field is set |
| `Users.ExecuteAssignments` | src/services/userService.js:139-162 | running the pushed assignments in order gives the row the caller asked for |
| `Users.UpdateKeepsUniqueEmails` | src/services/userService.js:139-142 | an accepted update keeps the emails unique |
| `Users.UpdateWithoutFieldsIsNoOp` | src/services/userService.js:160 | with nothing to set, the call resolves with nothing and changes nothing |
| `Users.UpdateWritesOnlyGivenFields` | src/services/userService.js:139-159 | an accepted update resolves with the wrapper's count for one matched row and changes only row `id`; in it `email` and `password` change only when truthy, the password only to its hash, each flag only when defined, and the API key never |
| `Users.UpdateRefusesTakenEmail` | src/services/userService.js:139-142 | an update to another user's email is refused by the unique index and changes nothing |
| `Users.SetUserActive` | src/services/userService.js:171-173 | `setUserActive` is `updateUser` with only `is_active` |
| `Users.ActivationSetsOnlyIsActive` | src/services/userService.js:152-155 | activation always runs one UPDATE which sets `is_active` of row `id`, keeps every other column, resolves with the wrapper's count for the one or zero matched rows, and does not depend on the password hash |
| `Users.DeleteUserCascade` | src/services/userService.js:175-198 | on a failure nothing is deleted and the call rejects; otherwise the tenant's rows are removed from the history, orders, logs, automations, subscriptions, integration settings, user settings and users tables, and every other row stays |
| `Users.DeleteOrders` | src/services/userService.js:179-180 | the tenant's history entries and orders are filtered out, in order, keeping the table invariants |
| `Users.DeleteLogsAndSettings` | src/services/userService.js:181-185 | the tenant's logs, automations, integration settings and user settings are removed |
| `Users.DeleteSubscriptionsAndUser` | src/services/userService.js:183-186 | the tenant's subscriptions and its user row are removed, keeping subscribers and emails unique |
| `Users.FilterKeepsPedidosValid` | src/services/userService.js:180 | deleting orders keeps the id order, the per-tenant unique phone index and the column kinds |
| `Users.DeleteKeepsKeys` | src/services/userService.js:183-186 | deleting keyed rows keeps keys below the next AUTOINCREMENT values and unique columns unique |
| `Users.CascadeRemovesEveryTrace` | src/services/userService.js:179-186 | after the cascade no row of the eight tables belongs to the tenant, and every row of another tenant is still there unchanged |
| `Users.CreateUser` | src/services/userService.js:11-30 | a failing or duplicate-email insert rejects with nothing changed; otherwise the user row (hashed password, the new API key, the given flags) is inserted under the next id and kept, on SQLite the default integration settings and automations are inserted for it (a failing automations write leaves that table as it was), and the call resolves with the new user exactly when the settings insert succeeds; on Postgres the id the wrapper gives back is undefined, so the settings row's NULL primary key is refused, the call rejects, and neither settings nor automations change |
| `Users.SeedTenant` | src/services/userService.js:19-26 | both default inserts are attempted; a failing automations write (always, on Postgres) is not observed, so the call succeeds exactly when the settings insert does |
| `Users.InsertUser` | src/services/userService.js:15-18 | the row is stored under the next AUTOINCREMENT id, which advances by one |
| `Users.InsertKeepsUniqueEmails` | src/services/userService.js:15 | inserting a row whose email nobody holds keeps the emails unique |
| `Users.CreateUserWithSubscription` | src/services/userService.js:32-88 | on any failure every touched table is rolled back and the call rejects with the fixed message; it succeeds exactly when the plan lookup works, plan 1 exists or can be inserted, the email is free, the dialect is SQLite (on Postgres the wrapper's `lastID` is undefined, so the NOT NULL `user_id` of the subscription insert is refused) and the subscription insert works; then the free plan exists, the user is stored under the next id with the hashed password, and its only subscription is an active plan-1 one |
| `Users.RestoreUsers` | src/services/userService.js:76-84 | the rollback restores the users table and its AUTOINCREMENT counter |
| `Users.InsertSubscription` | src/services/userService.js:56-65 | the subscription is stored under the next id, and it is the user's only one |
| `Automations.Stored` | src/services/automationService.js:17-20 | a read row becomes an entry whose `ativo` is true exactly when the stored flag is non-zero, with the stored text |
| `Automations.GetAutomations` | src/services/automationService.js:5-35 | a failing read rejects; otherwise the result is a merge of the read rows over the default table, and for one tenant it is exactly `Merged` |
| `Automations.FillDefaults` | src/services/automationService.js:23-30 | the `for...in` over the defaults adds each default trigger that has no entry, active with its default text, and touches no other entry |
| `Automations.MergeIsMerged` | src/services/automationService.js:9-30 | with a tenant given, only that tenant's rows are read and every possible merge is the one function `Merged` |
| `Automations.EveryDefaultPresent` | src/services/automationService.js:23-30 | the result has an entry for every default trigger |
| `Automations.StoredWins` | src/services/automationService.js:16-24 | a stored row wins over the default for its trigger, default trigger or not, with its flag read as a boolean |
| `Automations.DefaultFilled` | src/services/automationService.js:24-28 | a default trigger without a row is filled in active with the default text |
| `Automations.UnknownAbsent` | src/services/automationService.js:16-30 | a trigger with no row and no default has no entry |
| `Automations.OtherTenantsIgnored` | src/services/automationService.js:9-12 | other tenants' rows do not affect a tenant's merge |
| `Automations.SaveAutomations` | src/services/automationService.js:38-56 | the call always resolves, since the statements inside BEGIN…COMMIT have no callback; a failing write leaves the table unchanged, and so does Postgres, which refuses the SQLite-only `INSERT OR REPLACE`; otherwise each given trigger's row of the tenant is replaced and every other row kept |
| `Automations.ReplaceRows` | src/services/automationService.js:44-47 | the statement loop over the given triggers leaves exactly the table `Saved` describes |
| `Automations.SavedEffect` | src/services/automationService.js:40-47 | a saved key holds the new flag as 1 or 0 and the new text; every other key is untouched and no key disappears |
| `Automations.SaveThenRead` | src/services/automationService.js:5-56 | reading back after a save gives the saved configuration for each saved trigger |
| `Automations.CreateDefaultAutomations` | src/services/automationService.js:59-79 | the call always resolves, since the statements inside BEGIN…COMMIT have no callback; a failing write leaves the table unchanged, and so does Postgres, which refuses the SQLite-only `INSERT OR IGNORE`; otherwise the table is the old one with the missing default rows of the tenant inserted |
| `Automations.SeedRows` | src/services/automationService.js:65-70 | the statements of the transaction leave exactly the seeded table |
| `Automations.InsertDefaults` | src/services/automationService.js:67-70 | the `INSERT OR IGNORE` loop over the defaults adds exactly the tenant's missing default rows |
| `Automations.SeededEffect` | src/services/automationService.js:62-69 | after seeding, a key is present exactly when it was or it is a default of the tenant; existing rows are unchanged; new rows are active with the default text |
| `Automations.SeedingProperties` | src/services/automationService.js:62-70 | seeding never changes or removes a row, gives the tenant a row for each default trigger, and seeding twice is seeding once |
| `Automations.SeededFreshTenant` | src/services/automationService.js:5-79 | a tenant without rows reads back exactly the defaults, each active with its text |
| `Pedidos.Kept` | src/services/pedidoService.js:117 | the kept pairs are exactly the keys given a defined value, with those values, and none are kept exactly when every value is undefined |
| `Pedidos.Replacements` | src/services/pedidoService.js:130-135 | the bound values are the kept values in SET order, then the order id, then the tenant when one is given |
| `Pedidos.SetClausePlaceholders` | src/services/pedidoService.js:126 | the SET clause holds one placeholder per kept key |
| `Pedidos.PlaceholdersMatchReplacements` | src/services/pedidoService.js:126-135 | the statement holds exactly as many placeholders as bound values, on both database dialects |
| `Pedidos.UpdateCamposPedido` | src/services/pedidoService.js:114-152 | the row table is that of `UpdateCampos`: no statement and the literal `{ changes: 0 }` when nothing is defined, else the dynamic UPDATE, whose count of matched rows is reported as the driver wrapper reports it (`Db.Reported`: undefined on SQLite, undefined for 0 rows on Postgres), with its rejections (a phone clash only within a tenant, never for an order without one), keeping the table's invariants |
| `Pedidos.UpdateNothingDefined` | src/services/pedidoService.js:117-123 | with no defined value no statement runs: no row is matched and nothing is touched, even on a failing database |
| `Pedidos.UpdateRejectedUnchanged` | src/services/pedidoService.js:139-151 | a rejected update leaves the table as it was |
| `Pedidos.UpdateOnlyNamedFields` | src/services/pedidoService.js:117-135 | on success exactly the defined fields of the row with that id (and that tenant, when given) change, to the given values with null included; every other column, row, id and tenant stays |
| `Pedidos.AtMostOneMatch` | src/services/pedidoService.js:127-135 | an update by id changes at most one row, and exactly one when a row matches |
| `Pedidos.UpdateStatementValid` | src/services/pedidoService.js:139-147 | any update outcome keeps the id order, the per-tenant phone index and the column kinds |
| `Pedidos.AssignCols` | src/services/pedidoService.js:126-130 | an assigned column takes its value; any other column keeps its old value |
| `Pedidos.BumpUnread` | src/services/pedidoService.js:227 | `mensagensNaoLidas` gains one (NULL stays NULL); no other column changes |
| `Pedidos.ClearUnread` | src/services/pedidoService.js:248 | `mensagensNaoLidas` becomes 0; no other column changes |
| `Pedidos.RewriteKeepsRows` | src/services/pedidoService.js:225-262 | rewriting matched rows without touching id, tenant, phone or kinds keeps every table invariant |
| `Pedidos.IncrementarNaoLidas` | src/services/pedidoService.js:225-241 | a failing write rejects with nothing changed; otherwise the matched row's unread counter gains one and the call resolves with the number of matched rows as the driver wrapper reports it (`Db.Reported`: undefined on SQLite, undefined for 0 rows on Postgres) |
| `Pedidos.MarcarComoLido` | src/services/pedidoService.js:246-262 | a failing write rejects with nothing changed; otherwise the matched row's unread counter is zeroed and the call resolves with the number of matched rows as the driver wrapper reports it (`Db.Reported`: undefined on SQLite, undefined for 0 rows on Postgres) |
| `Pedidos.AllPedidos` | src/services/pedidoService.js:12-18 | the listing holds exactly the rows of the tenant (every row with no tenant) |
| `Pedidos.AllPedidosDescending` | src/services/pedidoService.js:18 | the listing is in decreasing id order |
| `Pedidos.GetAllPedidos` | src/services/pedidoService.js:10-27 | a failing read rejects; otherwise the listing |
| `Pedidos.FirstWithPhone` | src/services/pedidoService.js:63-70 | a found row has the phone and belongs to the tenant when one is given; none is found only when no such row exists |
| `Pedidos.FindByTelefone` | src/services/pedidoService.js:56-61 | a phone that does not normalise finds nothing |
| `Pedidos.FindByTelefoneUnique` | src/services/pedidoService.js:53-78 | within a tenant the unique index makes the row with the normalised phone the one found, whatever spelling of the number is given |
| `Pedidos.FindPedidoByTelefone` | src/services/pedidoService.js:53-78 | a phone that does not normalise resolves with null before any read; a failing read rejects; otherwise the row with the normalised phone |
| `Pedidos.NewColsFit` | src/services/pedidoService.js:278-279 | every column the INSERT sets holds a value of its kind or NULL, and the phone column holds the normalised phone |
| `Pedidos.CriarPedido` | src/services/pedidoService.js:267-288 | a missing name or a phone that does not normalise rejects with nothing inserted; the call succeeds exactly when the write works and the phone is free in the tenant (always, for an order without a tenant); then the new row (normalised phone, optional texts or NULL, zero counters, no checks yet) is appended under the next id, and the call resolves with that id as the wrapper's `lastID` gives it: the id on SQLite, undefined on Postgres, since the INSERT has no `RETURNING id` |
| `Pedidos.UntenantedNeverTaken` | src/database/database.js:105 | the unique index on (cliente_id, telefone) never refuses an order without a tenant, since a NULL tenant equals nothing |
| `Pedidos.AddMensagemHistorico` | src/services/pedidoService.js:157-187 | a failing insert rejects with nothing changed; otherwise the history entry (message '' when null) is appended under the next id, the call resolves with that id as the wrapper's `lastID` gives it (undefined on Postgres, since the INSERT has no `RETURNING id`), and the order's last-message update is applied or, when it fails, swallowed |
| `Pedidos.PhoneFreeUpdate` | src/services/pedidoService.js:139-147 | an update that assigns no phone cannot violate the unique index: without a storage failure it succeeds, keeps every row's key, and only the matched row takes the assigned values |
| `Pedidos.LastMessageApplied` | src/services/pedidoService.js:170-183 | the last-message update succeeds unless storage fails; the matched row gets the raw message (NULL when missing) and the instant, and other rows are untouched |
| `Template.FirstName` | src/controllers/envioController.js:39 | the first name is the prefix of the full name before its first single space, and holds no space |
| `Template.Personalizar` | src/controllers/envioController.js:35-36 | the result is null exactly when the template is null or empty |
| `Template.ChainAbsent` | src/controllers/envioController.js:70-83 | a text containing none of the patterns comes out of the replacement chain unchanged |
| `Template.TokenFreeUnchanged` | src/controllers/envioController.js:35-83 | a non-empty template with none of the thirteen tokens is returned unchanged |
| `Template.BracelessUnchanged` | src/controllers/envioController.js:35-83 | a non-empty template without a `{` is returned unchanged |
| `Template.ReplaceFlatten` | src/controllers/envioController.js:71-83 | one global replacement on a well-formed template replaces exactly the occurrences of that token |
| `Template.ChainFill` | src/controllers/envioController.js:70-83 | the replacement chain on a well-formed template is the intended filling, as long as no value put in for a token of the template supplies a `{` |
| `Template.PersonalizarFills` | src/controllers/envioController.js:35-83 | rendering a well-formed template replaces each of the thirteen tokens by its value and keeps all other text |
| `Template.TokenNamesDistinct` | src/controllers/envioController.js:71-83 | the thirteen replaced tokens are distinct |
| `Template.TokenValues` | src/controllers/envioController.js:38-83 | `{{nome_cliente}}` is the whole name and `{{primeiro_nome}}` its first word (both empty without a name); product, code, cities and phone are '' when missing; both status tokens are `statusInterno` or 'Status não disponível'; `{{link_rastreio}}` is the Correios URL plus the code, or '' without code |
| `EnvioPassos.SwapDown` | src/controllers/envioController.js:9 | exchanges two neighbouring steps of the array and is a permutation |
| `EnvioPassos.InsertStep` | src/controllers/envioController.js:9 | extends the sorted prefix by one step, leaves the rest in place, and is a permutation |
| `EnvioPassos.SortSteps` | src/controllers/envioController.js:9 | sorts the caller's array in place by non-decreasing `ordem`, as a permutation |
| `EnvioPassos.StepAction` | src/controllers/envioController.js:11-28 | a step of a non-media kind sends its rendered text when that is truthy and nothing otherwise; only a file step without a media URL throws before any send |
| `EnvioPassos.PerformStep` | src/controllers/envioController.js:11-28 | the `switch` on the step kind makes the client call `StepAction` chooses and changes only the trace |
| `EnvioPassos.RecordStep` | src/controllers/envioController.js:29-30 | the history write of the step and the 1000 ms pause, as `Record` describes |
| `EnvioPassos.SendStep` | src/controllers/envioController.js:10-30 | one iteration renders, sends, records and pauses, as `Step` describes |
| `EnvioPassos.EnviarPassos` | src/controllers/envioController.js:8-32 | the caller's array ends up sorted by `ordem` and a permutation of itself, and the steps ran in that order, stopping at the first one that throws |
| `EnvioPassos.SendSteps` | src/controllers/envioController.js:9-31 | the loop over the sorted steps is the run `RunSteps` describes |
| `EnvioPassos.RunAdvance` | src/controllers/envioController.js:9-31 | after one iteration the loop stops on a throw and otherwise continues with the rest |
| `EnvioPassos.RunAppend` | src/controllers/envioController.js:9-31 | running two lists of steps in turn is running their concatenation; nothing runs after a throwing step |
| `EnvioPassos.DeliveryHasNoPause` | src/controllers/envioController.js:11-28 | a send makes client calls only, never a pause |
| `EnvioPassos.PerformEffects` | src/controllers/envioController.js:11-28 | a send touches only the trace, keeps what was there and adds no pause |
| `EnvioPassos.RecordEffects` | src/controllers/envioController.js:29-30 | a recorded step adds one history row and ends with one pause; a failing history write changes nothing |
| `EnvioPassos.StepEffects` | src/controllers/envioController.js:10-30 | a completed step adds exactly one history row describing it and ends with exactly one pause; a step that throws writes no history row and adds no pause |
| `EnvioPassos.NumberedRows` | src/controllers/envioController.js:29 | the k-th numbered history row describes the k-th step with the k-th id |
| `EnvioPassos.RunRecords` | src/controllers/envioController.js:9-31 | with a loop body that records each completed step, a completed run writes one row per step in step order and pauses once per step |
| `EnvioPassos.StepRecords` | src/controllers/envioController.js:10-30 | the loop body of `enviarPassos` records each completed step |
| `EnvioPassos.RunStepsEffects` | src/controllers/envioController.js:9-31 | a completed `enviarPassos` writes one history row per step, the k-th describing the k-th step with its rendered text, and pauses once per step |
| `EnvioPassos.UnknownKindIsText` | src/controllers/envioController.js:24-27 | a step of any kind other than the four media kinds behaves as a text step |
| `EnvioPassos.EmptyTextSendsNothing` | src/controllers/envioController.js:26-30 | a text step whose render is empty or null sends nothing, yet is recorded and paused |
| `EnvioPassos.FileWithoutUrlThrows` | src/controllers/envioController.js:18-19 | a file step without a media URL throws from `path.basename` before the client is used, and leaves everything as it was |
| `EnvioPassos.NoClientStops` | src/controllers/envioController.js:11-28 | without a client the first step that would send throws 'not started' and ends the run with nothing recorded for it |
| `Envio.Classify` | src/controllers/envioController.js:100-127 | any trigger the rules choose writes a non-empty marker |
| `Envio.Decide` | src/controllers/envioController.js:100-129 | a message goes out only for the trigger of the first matching rule, with that rule's marker and a non-empty rendered text |
| `Envio.DispatchOrder` | src/controllers/envioController.js:95-144 | the body of the order loop changes the state as `ProcessOrder` describes and reports whether it threw |
| `Envio.SendRecorded` | src/controllers/envioController.js:137-138 | the send and the history write of one message, as `SendAndRecord` describes |
| `Envio.MarkDispatched` | src/controllers/envioController.js:140-143 | the marker write, the log row and the live update, as `Mark` describes, with the history untouched |
| `Envio.EnviarMensagemBoasVindas` | src/controllers/envioController.js:153-171 | a failing automations read rejects with nothing changed; otherwise the effect is `Welcome` for the welcome configuration the merge yields, which for a given tenant is the one `Merged` computes |
| `Envio.Welcomed` | src/controllers/envioController.js:155-170 | the part after the automations read, as `Welcome` describes |
| `Envio.DispatchTenant` | src/controllers/envioController.js:94-145 | the loop over one tenant's orders changes the state as `ProcessOrders` describes and reports whether an order threw |
| `Envio.ProcessOrdersStep` | src/controllers/envioController.js:94-145 | the tenant's loop from the j-th order is that order's dispatch, then the rest unless it threw |
| `Envio.DispatchSession` | src/controllers/envioController.js:91-145 | a connected session's failed read of automations or orders ends the sweep with nothing changed; otherwise its orders change the state as `ProcessOrders` describes, and the sweep ends when one threw |
| `Envio.ProcessSessionsStep` | src/controllers/envioController.js:86-151 | the sweep from the i-th session is: skip it when not connected, stop on a failed read, otherwise its tenant loop, then the rest unless an order threw |
| `Envio.EnviarMensagensComRegras` | src/controllers/envioController.js:86-151 | the whole sweep changes the state as `ProcessSessions` describes: sessions in order, unconnected ones skipped, and the first failure ends everything |
| `Envio.SentKeysAreTheTrackingTriggers` | src/controllers/envioController.js:108 | rule 2's exclusion list is exactly the six non-welcome triggers of the default table |
| `Envio.FirstConditionDecides` | src/controllers/envioController.js:100-127 | the first rule whose condition holds decides, even when its trigger is missing or inactive: the order is then silent although a later rule might have fired |
| `Envio.RuleThreeChosen` | src/controllers/envioController.js:116-121 | with a code and a marker among the six names, a lowercased status that differs from the marker chooses the trigger keyed by the status with whitespace turned into `_`, writing the lowercased status as marker |
| `Envio.RuleThreeKeyDiffersFromMarker` | src/controllers/envioController.js:117-121 | rule 3 looks up its configuration under `_` where the marker it writes keeps the whitespace |
| `Envio.NoImmediateRepeat` | src/controllers/envioController.js:100-140 | once an order's marker is written, the next sweep does not choose the same trigger again for the unchanged order |
| `Envio.StatusMarkerReopensRuleTwo` | src/controllers/envioController.js:108-121 | after rule 3 wrote a marker that is not one of the six names, an order with a code meets rule 2 on the next sweep and is given `envio_rastreio` again |
| `Envio.StatusMarkerSettles` | src/controllers/envioController.js:100-127 | without a code, or with a status that is one of the six names, a rule-3 marker settles the order: the next sweep chooses nothing |
| `Envio.QuietLeavesWorld` | src/controllers/envioController.js:129-131 | with no message or no client the order is passed over with no effect at all |
| `Envio.QuietTenantUntouched` | src/controllers/envioController.js:94-145 | a tenant none of whose orders has a message is left exactly as it was |
| `Envio.SendFailureWritesNothing` | src/controllers/envioController.js:137-143 | a send the client rejects ends the order before any history, marker, log or live update |
| `Envio.MarkerCamposKept` | src/controllers/envioController.js:140 | the marker update names only the `mensagemUltimoStatus` column |
| `Envio.SendAndRecordEffects` | src/controllers/envioController.js:137-138 | an accepted send with no storage fault makes one client call and adds one history entry, and the order keeps its code and status |
| `Envio.MarkEffects` | src/controllers/envioController.js:140-143 | with no storage fault the marking writes the marker, one log row for the tenant (1 when it has none) and, when broadcasting, one live update, and keeps code and status |
| `Envio.DispatchEffects` | src/controllers/envioController.js:129-144 | with no fault a firing order yields, in this order, the client call, one history entry of the sent text typed by the marker, the marker, one log row and (when broadcasting) one live update |
| `Envio.WelcomeWithoutClient` | src/controllers/envioController.js:159-169 | without a client nothing is sent and no history is written, yet the `boas_vindas` marker, the log row and the live update are still written |
| `Envio.OneOrder` | src/controllers/envioController.js:94 | a tenant with a single order is that order's dispatch |
| `Envio.SingleDispatch` | src/controllers/envioController.js:94-144 | a tenant whose one order fires with no fault gets the client call, then the live update, and the marker on the order |
| `Envio.AbortIgnoresRest` | src/controllers/envioController.js:87-150 | a throw ends the tenant's loop: later orders are never looked at |
| `Envio.AbortEndsSweep` | src/controllers/envioController.js:87-150 | a throw in one tenant ends the sweep: later sessions are never looked at |
| `Envio.NotConnectedSkipped` | src/controllers/envioController.js:89 | a session that is not `CONNECTED` is skipped |
| `EnvioScenarios.FirstNameOfJoao` | tests/envioController.test.js:24 | the first name of 'João Teste' is 'João' |
| `EnvioScenarios.StatusChangeTrigger` | tests/envioController.test.js:22-30 | for the test order rules 1 and 2 do not hold and rule 3 does, with key 'pedido_a_caminho' and marker 'pedido a caminho' |
| `EnvioScenarios.FillsNameAndStatus` | src/controllers/envioController.js:70-83 | a template whose only tokens are the first name and the status is filled in as intended when those values hold no `{` |
| `EnvioScenarios.StatusChangeFills` | tests/envioController.test.js:13-30 | the replacement chain on the test order and template is the intended filling |
| `EnvioScenarios.StatusChangeRender` | tests/envioController.test.js:13-53 | the test template renders as 'Olá João, seu status é Pedido a caminho' |
| `EnvioScenarios.StatusChangeDecision` | tests/envioController.test.js:12-54 | rule 3 fires for the test order with that text and the marker 'pedido a caminho' |
| `EnvioScenarios.StatusChangeSweep` | tests/envioController.test.js:12-56 | on the whole tenant, with no fault, the client is asked to send that text to '11988887777', tenant 5 gets one live update for order 1, and the order's marker becomes 'pedido a caminho' |
| `EnvioScenarios.UnchangedStatusQuiet` | tests/envioController.test.js:58-98 | with the marker already the lowercased status, rule 2's condition holds first (the marker is not one of the six names); `envio_rastreio` is not configured, so nothing is sent |
| `Rastreamento.VerificarRastreios` | src/controllers/rastreamentoController.js:54-105 | the database and outbox after the sweep are `Sweep` of the old ones: nothing in the quiet hours or when the orders cannot be read, otherwise the loop over the trackable orders of the tenant |
| `Rastreamento.CheckOrders` | src/controllers/rastreamentoController.js:64-101 | the loop over the candidates leaves the state `TrackOrders` gives (not-due orders skipped, a throw out of the `catch` ends the loop) |
| `Rastreamento.CheckNext` | src/controllers/rastreamentoController.js:65-100 | one turn: when it stops, the state is the whole remaining loop's; otherwise the remaining loop from the old state equals the loop over the rest from the new state |
| `Rastreamento.CheckOrder` | src/controllers/rastreamentoController.js:67-100 | one due order, its `try` and its `catch`, as `TrackOrder` states |
| `Rastreamento.AttemptTracking` | src/controllers/rastreamentoController.js:67-96 | the inner `try`: the settings read, the tracking call and what follows, with effects before a throw kept |
| `Rastreamento.ApplyTracking` | src/controllers/rastreamentoController.js:72-96 | once the tracking service answered: the update, the live update and the log row |
| `Rastreamento.UpdateTracked` | src/controllers/rastreamentoController.js:91 | the UPDATE of the order's fields, as `updateCamposPedido` with the computed `updateData` |
| `Rastreamento.AnnounceTracked` | src/controllers/rastreamentoController.js:92-96 | the live update when the status changed and a callback was given, then the `rastreamento` log row |
| `Rastreamento.TrackOrdersAdvance` | src/controllers/rastreamentoController.js:64-101 | a due order is checked; a throw out of its `catch` ends the sweep, any other outcome goes on with the next order |
| `Rastreamento.TrackOrdersSkip` | src/controllers/rastreamentoController.js:65 | an order that is not due is skipped without effect |
| `Rastreamento.FailureLoggedAndSkipped` | src/controllers/rastreamentoController.js:97-100 | a throw while checking one order is logged as `falha_rastreamento` with the order id and message under the order's own `cliente_id`, and the loop goes on from the state the throw left |
| `Rastreamento.FailedLogEndsSweep` | src/controllers/rastreamentoController.js:99-104 | when that failure log cannot be written either, the sweep ends with the order |
| `Rastreamento.UpdateKeepsUnmatched` | src/services/pedidoService.js:114-152 | an UPDATE leaves every row it does not match as it was |
| `Rastreamento.ApplyKeepsUnmatched` | src/controllers/rastreamentoController.js:72-96 | the steps after the tracking answer change no row but the order's |
| `Rastreamento.TrackOrderKeepsUnmatched` | src/controllers/rastreamentoController.js:67-100 | checking one order changes no row but that order's |
| `Rastreamento.TrackOrdersKeepsUnmatched` | src/controllers/rastreamentoController.js:64-101 | the loop changes no row that none of its due orders matches |
| `Rastreamento.SweepLeavesOtherOrders` | src/controllers/rastreamentoController.js:60-65 | a sweep never touches an order that is delivered, returned or without a code, is not due, or belongs to another tenant |
| `Rastreamento.IdleSweep` | src/controllers/rastreamentoController.js:56-60 | from 22:00 to 06:00, or when the orders cannot be read, the sweep changes nothing |
| `Rastreamento.NothingToTrack` | src/controllers/rastreamentoController.js:61-62 | with no trackable order of the tenant the sweep changes nothing |
| `Rastreamento.LiveUpdateOnlyOnChange` | src/controllers/rastreamentoController.js:92-94 | the only event a check emits is one `pedido_atualizado` for the order, and none without a callback, a settings row, a tracking answer or a status change |
| `Rastreamento.FinishedNeverDue` | src/controllers/rastreamentoController.js:9-10 | a delivered or returned order, in any letter case, is never due |
| `Rastreamento.SaturatedDaily` | src/controllers/rastreamentoController.js:14-17 | past 100 checks an order is due exactly when never checked or after 24 hours |
| `Rastreamento.OutForDeliveryHalfHourly` | src/controllers/rastreamentoController.js:19-22 | an order out for delivery is due exactly when never checked or after 30 minutes |
| `Rastreamento.PostedFirstPeriod` | src/controllers/rastreamentoController.js:24-29 | a posted order in its first 24 hours since the status change is due exactly when never checked |
| `Rastreamento.PostedLaterPeriods` | src/controllers/rastreamentoController.js:24-31 | later, a posted order is due exactly when never checked or after 8 hours |
| `Rastreamento.PostedCountsPeriodsNotDays` | src/controllers/rastreamentoController.js:26-28 | the day count is of 24-hour periods: a posted order changed and checked at 23:00 is not due at 20:00 the next day |
| `Rastreamento.ScheduledWindows` | src/controllers/rastreamentoController.js:34-46 | any other status is due only within five minutes from 10:30 or 14:30, and an order never checked is due exactly then |
| `Rastreamento.ScheduledChecksHoursApart` | src/controllers/rastreamentoController.js:39-45 | after a check at one of those times, such an order is not due again until the other time, almost four hours later |
| `Rastreamento.ActiveHours` | src/controllers/rastreamentoController.js:56-58 | the sweep runs exactly from 06:00 up to 22:00 São Paulo time |
| `Rastreamento.UpdateDataWellFormed` | src/controllers/rastreamentoController.js:74-89 | the update names distinct columns, each value of its column's kind |
| `Rastreamento.WrittenAt` | src/services/pedidoService.js:114-152 | a successful update gives each named column its defined value, or keeps it |
| `Rastreamento.UpdateApplies` | src/services/pedidoService.js:114-152 | a successful update applies all its fields to the matched row |
| `Rastreamento.StampApplied` | src/controllers/rastreamentoController.js:74-77 | after a check the count is the old count (missing as 0) plus one and the check time is stamped |
| `Rastreamento.StatusApplied` | src/controllers/rastreamentoController.js:79-88 | when the lower-cased new status is non-empty and differs from the stored one, it is stored with a change stamp |
| `Rastreamento.LocationsApplied` | src/controllers/rastreamentoController.js:80-86 | then the five location fields take the tracking result's values, an undefined one keeping the stored value |
| `Rastreamento.StatusKept` | src/controllers/rastreamentoController.js:79 | without a status change the status, its stamp and the location fields stay |
| `Rastreamento.OthersKept` | src/controllers/rastreamentoController.js:74-89 | no other column is written by a check |
| `Rastreamento.CheckedOrderFields` | src/controllers/rastreamentoController.js:67-91 | after a successful check the order's row is its old row with exactly those changes |
| `FlowService.FlowTables.constructor` | src/services/flowService.js:1-6 | empty flow, node and option tables with every id counter at 1, and the given write rejections |
| `FlowService.FlowTables.Rollback` | src/services/flowService.js:42-44 | the tables are restored to the snapshot taken when the transaction began |
| `FlowService.FlowTables.CreateNodes` | src/services/flowService.js:16-25 | fails exactly when the database rejects one of the node rows; otherwise appends one row per input node in input order, numbered consecutively, and returns the `created` entries for them |
| `FlowService.FlowTables.CreateOptionsOf` | src/services/flowService.js:29-36 | fails exactly when one of the node's option rows is rejected; otherwise appends them, each with its target looked up in the id map |
| `FlowService.FlowTables.CreateOptions` | src/services/flowService.js:28-37 | the option loop over every created node, all against the one id map, appends exactly `OptionRowsFrom` of all the pairs, or fails exactly when one of those rows is rejected |
| `FlowService.FlowTables.SaveNodesOf` | src/services/flowService.js:15-38 | the nodes part of a save: fails exactly when `SaveNodes` rejects, and otherwise leaves the tables `SaveNodes` gives; nothing when `nodes` is not an array |
| `FlowService.FlowTables.CreateFlow` | src/services/flowService.js:3-46 | the tables and the answer are those of `Create`: the flow row, its nodes and options, committed, or rolled back with the error |
| `FlowService.FlowTables.UpdateFlow` | src/services/flowService.js:64-108 | the tables and the answer are those of `Update`: flow row updated, its nodes destroyed and recreated, the flow re-read, or everything rolled back |
| `FlowService.FindFlowRow` | src/services/flowService.js:103 | `findByPk` finds a row with that id, or none exists |
| `FlowService.OptionPairsPrefix` | src/services/flowService.js:28-29 | the options of a prefix of the created nodes are a prefix of all the options |
| `FlowService.OptionRowsStep` | src/services/flowService.js:28-36 | the option rows of one more node extend the rows so far |
| `FlowService.RejectedStep` | src/services/flowService.js:31-35 | a rejected option insert of one node is a rejected insert of the whole loop |
| `FlowService.IdMapValues` | src/services/flowService.js:27 | every value of the id map is the id of a created node |
| `FlowService.RowTargets` | src/services/flowService.js:30-34 | an option row's target is null or a value of the id map |
| `FlowService.TargetsAreSavedNodes` | src/services/flowService.js:27-35 | every option a save creates points at a node created in the same save, or nowhere |
| `FlowService.CreatedOptionsStayInFlow` | src/services/flowService.js:3-46 | after a `createFlow` that succeeds, the new options point only at the new flow's own new nodes |
| `FlowService.NewNodesOfFlow` | src/services/flowService.js:17-25 | the nodes a save appends are the rows for the input nodes, in input order, all in the saved flow |
| `FlowService.IdMapLookup` | src/services/flowService.js:24-27 | a node's remap key (its truthy `client_id`, else its 0-based position) maps to its id unless a later node has the same key |
| `FlowService.PositionalReferences` | src/services/flowService.js:27-34 | without `client_id`s a reference `k` finds the node at 0-based index `k`, and any reference outside `0 .. n-1` finds nothing, so 1-based editor references are off by one |
| `FlowService.IdMapKeys` | src/services/flowService.js:27 | without truthy `client_id`s the keys of the id map are exactly positions |
| `FlowService.CreateStores` | src/services/flowService.js:8-25 | a successful `createFlow` adds the flow with the next id, active unless `is_active` says otherwise, then the nodes in input order with empty texts as null and absent start flags as false |
| `FlowService.AllOrNothing` | src/services/flowService.js:40-45 | a failed `createFlow` or `updateFlow` leaves all tables as they were, and `createFlow` fails exactly when one of its inserts is rejected |
| `FlowService.UpdateReplacesNodes` | src/services/flowService.js:75-99 | after a successful `updateFlow` the flow's nodes are exactly the recreated ones in input order, none when `nodes` is not an array, and every other flow keeps its nodes |
| `OrderFlow.OrderFlowStore.constructor` | src/services/flows/flowEngineService.js:19 | a store holding the given flows, nodes and options and no conversation state |
| `OrderFlow.FindState` | src/services/flows/flowEngineService.js:20 | the position of a state row of the order, or none exists |
| `OrderFlow.FindNode` | src/services/flows/flowEngineService.js:23 | a node with that id, or none exists |
| `OrderFlow.OptionsOf` | src/services/flows/flowEngineService.js:9 | exactly the options whose source is the node |
| `OrderFlow.FindOption` | src/services/flows/flowEngineService.js:27 | an option of the node whose label is exactly the text, or none exists |
| `OrderFlow.FirstOption` | src/services/flows/flowEngineService.js:38 | an option of the node, or the node has none |
| `OrderFlow.FindFlow` | src/services/flows/flowEngineService.js:50 | an active flow of the tenant whose keyword is exactly the text, or none exists |
| `OrderFlow.StartNode` | src/services/flows/flowEngineService.js:52 | a start node of the flow, or none exists |
| `OrderFlow.OptionLines` | src/services/flows/flowEngineService.js:11 | one `- label` line per option, in order |
| `OrderFlow.SendNode` | src/services/flows/flowEngineService.js:4-5 | a missing node sends nothing and succeeds |
| `OrderFlow.SendNodeTo` | src/services/flows/flowEngineService.js:4-16 | the outcome and the events added are those of `SendNode`: the node's text sent through the WhatsApp client |
| `OrderFlow.Advance` | src/services/flows/flowEngineService.js:29-33 | the state table, the events and the answer are those of `MoveTo`: send the next node, then point the state at it |
| `OrderFlow.Continue` | src/services/flows/flowEngineService.js:22-48 | the state table, the events and the answer are those of `Continued` for an order already in a flow |
| `OrderFlow.ProcessMessage` | src/services/flows/flowEngineService.js:18-57 | the state table, the events and the answer are those of `Process`, in which only the WhatsApp send can fail |
| `OrderFlow.RemoveKeepsOne` | src/services/flows/flowEngineService.js:24 | deleting a state row keeps at most one row per order and adds none |
| `OrderFlow.ProcessKeepsOneStatePerOrder` | src/services/flows/flowEngineService.js:18-57 | the engine never gives an order a second state row |
| `OrderFlow.UnhandledSendsNothing` | src/services/flows/flowEngineService.js:24-28 | an answer of false sends nothing and leaves the table as it was, or with only the order's own dangling state gone |
| `OrderFlow.UnknownAnswerIgnored` | src/services/flows/flowEngineService.js:26-28 | a reply at a question node that is no option's label returns false, sends nothing and keeps the state |
| `OrderFlow.DanglingStateDeleted` | src/services/flows/flowEngineService.js:23-24 | a state pointing at no node is deleted, nothing is sent and the answer is false |
| `OrderFlow.MoveToEffects` | src/services/flows/flowEngineService.js:29-33 | with the next node present it is sent and then the state moves; a send that throws leaves the state; a missing next node sends nothing and the state still moves |
| `OrderFlow.MatchedAnswer` | src/services/flows/flowEngineService.js:27-36 | a matching option with a next id follows it; one without deletes the state, sends nothing and answers true |
| `OrderFlow.NonQuestionFollowsFirstOption` | src/services/flows/flowEngineService.js:37-46 | any other node follows its first option's next id, or the state is deleted and the answer is true |
| `OrderFlow.ResolvableStateHandled` | src/services/flows/flowEngineService.js:22-47 | with a resolvable state the answer is never false unless the reply is an unknown answer to a question |
| `OrderFlow.StartingAFlow` | src/services/flows/flowEngineService.js:50-56 | an order in no flow starts the tenant's active flow whose keyword is the text: its start node is sent and exactly one state pointing at it is created; without flow or start node nothing happens and the answer is false |
| `OrderFlow.QuestionText` | src/services/flows/flowEngineService.js:7-14 | a question's text is its message, then one `- label` line per option; only the lines without a message; the message alone without options |
| `PhoneFlow.PhoneFlowStore.constructor` | src/flows/flowEngineService.js:18 | a store holding the given flows, nodes and options and no conversation state |
| `PhoneFlow.FindState` | src/flows/flowEngineService.js:19 | the position of a state row of the (tenant, phone) pair, or none exists |
| `PhoneFlow.FindNode` | src/flows/flowEngineService.js:22 | a node with that id, or the id is null or no node has it |
| `PhoneFlow.OptionsOf` | src/flows/flowEngineService.js:11 | exactly the options of the node |
| `PhoneFlow.FindOption` | src/flows/flowEngineService.js:26 | an option of the node whose label is exactly the text, or none exists |
| `PhoneFlow.FindFlow` | src/flows/flowEngineService.js:48 | a flow of the tenant with `gatilho` equal to the text and `ativo` 1, or none exists |
| `PhoneFlow.FirstNode` | src/flows/flowEngineService.js:50 | the flow's node with the lowest id, or the flow has no node |
| `PhoneFlow.OptionLines` | src/flows/flowEngineService.js:12 | one `- label` line per option, in order |
| `PhoneFlow.SendNodeTo` | src/flows/flowEngineService.js:5-15 | the outcome and the events added are those of `SendNode`: nothing for a missing node or one of another kind |
| `PhoneFlow.Advance` | src/flows/flowEngineService.js:29-32 | the state table, the events and the outcome are those of `MoveTo`: send the next node, then point the state at it |
| `PhoneFlow.Continue` | src/flows/flowEngineService.js:21-45 | the state table, the events and the outcome are those of `Continued` for a contact already in a flow |
| `PhoneFlow.ProcessMessage` | src/flows/flowEngineService.js:17-54 | the state table, the events and the outcome are those of `Process`, in which only the WhatsApp send can fail |
| `PhoneFlow.RemoveKeepsOne` | src/flows/flowEngineService.js:23 | deleting a state row keeps at most one row per contact |
| `PhoneFlow.ProcessKeepsOneStatePerContact` | src/flows/flowEngineService.js:17-54 | the engine never gives a (tenant, phone) pair a second state row |
| `PhoneFlow.OtherContactsUntouched` | src/flows/flowEngineService.js:17-54 | the state rows of every other contact come out as they went in, in the same order |
| `PhoneFlow.ContinuedShape` | src/flows/flowEngineService.js:21-45 | a contact in a flow keeps, moves or loses its own row and no other |
| `PhoneFlow.StartedShape` | src/flows/flowEngineService.js:48-53 | starting a flow adds at most one row, the contact's own |
| `PhoneFlow.Others` | src/flows/flowEngineService.js:19 | exactly the rows of other contacts |
| `PhoneFlow.UnknownAnswerIgnored` | src/flows/flowEngineService.js:25-27 | a reply at a question node that is no option's label changes nothing and sends nothing |
| `PhoneFlow.DanglingStateDeleted` | src/flows/flowEngineService.js:22-23 | a state whose node is null or gone is deleted and nothing is sent |
| `PhoneFlow.MatchedAnswer` | src/flows/flowEngineService.js:26-35 | a matching option with a next id follows it; one without deletes the state |
| `PhoneFlow.OtherNodeFollowsOwnNext` | src/flows/flowEngineService.js:36-43 | a node that is not a question advances along its own `next_node_id` whatever the reply, or the state is deleted |
| `PhoneFlow.MoveToEffects` | src/flows/flowEngineService.js:28-43 | the next node is sent and only then does the state move; a throwing send keeps the state; a missing next node sends nothing and the state still moves |
| `PhoneFlow.StartingAFlow` | src/flows/flowEngineService.js:48-53 | a contact in no flow starts the tenant's active flow whose trigger is the text at its lowest-id node: it is sent, then exactly one state pointing at it is created; without flow or node nothing is sent or created |
| `PhoneFlow.FailedSendChangesNothing` | src/flows/flowEngineService.js:28-53 | a send that throws leaves the state table as it was |
| `PhoneFlow.NodeTexts` | src/flows/flowEngineService.js:5-14 | a question's text is its content line (empty when missing) and then its `- label` lines; a message node sends its content; any other kind sends nothing |
| `MessageUtils.Render` | src/utils/messageUtils.js:34 | a present value prints as itself inside a template literal |
| `MessageUtils.Before` | src/utils/messageUtils.js:24 | the longest prefix holding no separator, followed in the string by the separator when shorter |
| `MessageUtils.SplitSecond` | src/utils/messageUtils.js:24 | `split(c)[1]` is defined exactly when the string holds `c`, and holds no `c` |
| `MessageUtils.SplitSecondOf` | src/utils/messageUtils.js:24 | `(a + '/' + b).split('/')[1]` is `b` when neither piece holds a `/` |
| `MessageUtils.ProcessIncomingMessage` | src/utils/messageUtils.js:10-41 | there is a media URL exactly when the message is media and its download succeeded; without one the type is `texto` |
| `MessageUtils.TextPassesThrough` | src/utils/messageUtils.js:11-21 | a message that is neither flagged media nor of a media type passes through as `texto` with its body and no file |
| `MessageUtils.FailedDownloadBecomesText` | src/utils/messageUtils.js:32-37 | a failed download or write becomes `texto` with the `[MÍDIA NÃO BAIXADA] ` placeholder before the body, and no file |
| `MessageUtils.MediaKeepsTypeAndCaption` | src/utils/messageUtils.js:24-31 | a saved media message other than a voice note keeps its type, its content is the caption or empty, and its URL is `/uploads/media_<now>.<ext>` |
| `MessageUtils.VoiceNoteIsAudio` | src/utils/messageUtils.js:24-31 | a saved voice note is `audio`, its content is the caption or `[ÁUDIO]`, and its URL is `/uploads/audio_<now>.ogg` |
| `MessageUtils.SavedFileStaysInUploads` | src/utils/messageUtils.js:24-29 | whatever the mimetype, the saved file's name holds no path separator, so it lands directly in the uploads directory |
| `MessageUtils.DistinctInstantsDistinctFiles` | src/utils/messageUtils.js:26 | files saved for the same message at different instants get different names |
| `MessageUtils.PngExtension` | src/utils/messageUtils.js:24 | the mimetype `image/png` gives the extension `png` |
| `MessageUtils.ImageScenario` | tests/messageUtils.test.js:19-28 | an image with caption `cap` and mimetype `image/png` at instant 1000 gives `cap`, `image`, `/uploads/media_1000.png` |
| `MessageUtils.VoiceNoteScenario` | tests/messageUtils.test.js:30-39 | a voice note without caption at instant 1000 gives `[ÁUDIO]`, `audio`, `/uploads/audio_1000.ogg` |
| `MessageUtils.DecryptFailureScenario` | tests/messageUtils.test.js:41-48 | an image whose decryption rejects gives `[MÍDIA NÃO BAIXADA] hello`, `texto` and no URL |
| `Websocket.Get` | src/websocket.js:51-58 | a property the object lacks reads as undefined |
| `Websocket.Json` | src/websocket.js:52-60 | `JSON.stringify` keeps exactly the properties whose value is not undefined, with their values |
| `Websocket.Registry.constructor` | src/websocket.js:4-6 | an empty client map over the given sessions, with no frame sent and no socket closed |
| `Websocket.Registry.AddClient` | src/websocket.js:8-11 | the client map becomes `Added`: the socket joins the user's set, created when missing |
| `Websocket.Registry.RemoveClient` | src/websocket.js:13-19 | the client map becomes `Removed`: the socket leaves the user's set, and an emptied set is deleted |
| `Websocket.Registry.BroadcastToUser` | src/websocket.js:21-28 | nothing for a user without sockets; otherwise the JSON of `data` goes exactly once to each of the user's open sockets and nowhere else, after the frames already sent |
| `Websocket.Registry.BroadcastStatus` | src/websocket.js:30-41 | the user's session (created when missing) is updated and stored, and the merged payload goes to each of the user's open sockets exactly once |
| `Websocket.Registry.Connect` | src/websocket.js:43-65 | a token that does not verify closes the socket and changes nothing else; otherwise the socket joins its user's set and is sent the current status snapshot |
| `Websocket.Registry.Close` | src/websocket.js:61 | the close handler removes the socket from its user's set |
| `Websocket.DeliveredStep` | src/websocket.js:25-27 | one more loop turn sends to the socket when it is open and keeps the once-per-open-socket property |
| `Websocket.AddedContains` | src/websocket.js:8-11 | after `addClient` the socket is among the user's, which otherwise are unchanged, and every other user is untouched |
| `Websocket.AddedKeepsNoEmptySets` | src/websocket.js:8-11 | `addClient` never leaves a user mapped to an empty set |
| `Websocket.RemovedDropsSocket` | src/websocket.js:13-19 | `removeClient` drops the socket and, with its last socket, the user's key, so no user maps to an empty set; every other user is untouched |
| `Websocket.AddThenRemove` | src/websocket.js:8-19 | removing a socket just added restores the client map |
| `Websocket.WithStatusFields` | src/websocket.js:31-39 | `broadcastStatus` sets the status, overwrites `qrCode` and `botInfo` exactly when `data` owns those keys (an undefined value included), and keeps every other field |
| `Websocket.WithStatusIdempotent` | src/websocket.js:31-39 | repeating a status update changes the session no further |
| `Websocket.StatusPayloadFields` | src/websocket.js:40 | the payload carries every property of `data` as given, and `type`, `userId` and `status` wherever `data` does not override them |
| `Websocket.SnapshotComplete` | src/websocket.js:51-60 | the connection snapshot always has exactly the five properties, none undefined; a user without a session sees `DISCONNECTED` and nulls |
| `Websocket.SnapshotAfterStatus` | src/websocket.js:30-60 | after `broadcastStatus` with a non-empty status, a socket that connects sees that status |
| `WhatsApp.Address` | src/services/whatsappService.js:24-25 | the chat address is the normalised number followed by `@c.us`, or `null@c.us` when the number does not normalise |
| `WhatsApp.ResolveMediaPath` | src/services/whatsappService.js:5-11 | a falsy URL passes through; `/uploads/x` and `uploads/x` become the normalised `path.join` of `__dirname/../../public` and `uploads/x`, which is its own normal form; anything else passes through |
| `WhatsApp.NormalizeIdempotent` | src/services/whatsappService.js:8 | normalising the result of `path.join` again changes nothing |
| `WhatsApp.NormalFormsOfNothing` | src/services/whatsappService.js:8 | the empty results "/", "./" and "." are their own normal forms |
| `WhatsApp.Renormalize` | src/services/whatsappService.js:8 | a path made of resolved segments, with its leading and trailing separators, is its own normal form |
| `WhatsApp.TrimTrailingSlashes` | src/services/whatsappService.js:53-58 | a prefix of the path that does not end in `/` |
| `WhatsApp.AfterLastSlash` | src/services/whatsappService.js:53-58 | a suffix of the path holding no `/` |
| `WhatsApp.Basename` | src/services/whatsappService.js:53-58 | `path.basename` holds no `/` |
| `WhatsApp.BasenameOfJoin` | src/services/whatsappService.js:53-58 | a non-empty segment without `/` is the basename of any path ending in `/` plus it |
| `WhatsApp.AfterLastSlashOfJoin` | src/services/whatsappService.js:53-58 | the text after the last `/` of a path ending in `/` plus a segment without `/` is that segment |
| `WhatsApp.ImageRequest` | src/services/whatsappService.js:29-35 | the `sendImage` request cannot be built exactly when the path is null, where `path.basename` throws |
| `WhatsApp.VideoRequest` | src/services/whatsappService.js:53-62 | `sendVideo` is a `sendFile` named by the path's basename, and cannot be built exactly when the path is null |
| `WhatsApp.Deliver` | src/services/whatsappService.js:22-62 | without a client the send throws 'not started' and calls nothing; it succeeds exactly when there is a client, the request was built and the client does not reject it, and then exactly that one call is made |
| `WhatsApp.Send` | src/services/whatsappService.js:22-62 | the outcome and the calls added are those of `Deliver` |
| `WhatsApp.EnviarMensagem` | src/services/whatsappService.js:22-27 | a text request to the address of the number, delivered as `Deliver` states |
| `WhatsApp.SendImageTo` | src/services/whatsappService.js:29-35 | the image request, delivered as `Deliver` states |
| `WhatsApp.SendAudio` | src/services/whatsappService.js:37-43 | a voice request with the resolved path, delivered as `Deliver` states |
| `WhatsApp.SendFileTo` | src/services/whatsappService.js:45-51 | a file request with the resolved path and the given name, delivered as `Deliver` states |
| `WhatsApp.SendVideo` | src/services/whatsappService.js:53-62 | the video request, delivered as `Deliver` states |
| `WhatsApp.ProfilePicUrl` | src/services/whatsappService.js:72-84 | the server's picture when there is a client, a number that normalises and a truthy answer; the default avatar in every other case, a failed lookup included |
| `WhatsApp.AddressExample` | tests/whatsappService.test.js:5-13 | the number '11987654321' is addressed as '5511987654321@c.us' |
| `WhatsApp.ResolveUploadPath` | src/services/whatsappService.js:7-9 | `/uploads/<name>` with a plain file name resolves to `<public>/uploads/<name>`, where `<public>` is the normal form of `__dirname/../../public` |
| `WhatsApp.ParentSegmentCollapses` | src/services/whatsappService.js:7-9 | `/uploads/<name>/..` resolves to `<public>/uploads`, so its basename is `uploads` |
| `WhatsApp.ImageFromUploads` | src/services/whatsappService.js:29-35 | an image under `/uploads/` is sent from the public directory, named by its file name |
| `WhatsApp.ImageExample` | tests/whatsappService.test.js:5-13 | `/uploads/test.png` is sent to '5511987654321@c.us' from the public directory as 'test.png' with caption 'hello' |
| `WhatsApp.AudioExample` | tests/whatsappService.test.js:15-23 | a remote audio URL is sent unchanged to '5511987654321@c.us' |

## Left out

- HTTP routes, controllers other than the two modelled, `server.js` timers, app start-up and the browser UIs are not part of this model. They only call the operations above.
- WhatsApp session bring-up (venom-bot, `whatsappSessions.js`) is not modelled. The dispatcher reads only a session's `status` and a client handle, and a client's answer to each request is the `refuses` oracle.
- Storage failures of the SQL tables are the `readFails`/`writeFails` sets of tables, fixed per `Database`. The flow tables of `flowService` fail through `FlowService.FlowTables.rejects`; the two flow-engine stores have no storage failures (see below). A failing table fails every statement on it, so the model does not separate two statements on the same table that might fail differently.
- Clocks are parameters: `now` is in milliseconds, and `Rastreamento.Clock` gives the São Paulo wall clock and the start of its day. `ClockOk` (day start <= clock < day start + 24 h) is the only assumption about them. Time-zone conversion and `toLocaleString` are not computed.
- Calendar arithmetic is not computed: moment's "one month later, start of day" is the parameter `monthLater` of `Subscriptions.ResetUsageIfNeeded`.
- The rest of the outside world is also a parameter:
  - the bcrypt hash (`hash`);
  - the random API key (`apiKey`);
  - the deployment's default tracking key (`defaultKey`);
  - the tracking service answer (`tracker`);
  - the JWT check (`decoded`);
  - the sockets' `readyState` (`open`);
  - the media download (`fetched`).
- Template.TokenValues: gives the values of ten of the thirteen tokens. The three date tokens take whatever the `Formats` parameter gives, because `toISOString`, `toLocaleString` and `toLocaleDateString` belong to the JavaScript runtime.
- `String.replace` with a replacement string interprets `$&`, `$1` and similar patterns. The model substitutes the value literally.
- `Util.Lower` lower-cases ASCII and Latin-1 letters only. Full Unicode case mapping is not modelled.
- Pedidos.UpdateCamposPedido: requires every defined value to be of its column's kind (text, integer or instant). SQLite's type affinity for values of another kind is not modelled. Every caller in the modelled code passes values of the right kind.
- A live-update callback is modelled as present or absent (`broadcast: bool`), with its calls recorded as `Push` events. What the callback does (the websocket server) is modelled separately in `Websocket`.
- The steps branch of `enviarMensagensComRegras` and `enviarMensagemBoasVindas` is not modelled in the dispatcher. `getAutomations` builds entries with only `ativo` and `mensagem`, so `config.steps` is never an array and the text path is always taken. `enviarPassos` itself is modelled on its own (`EnvioPassos.EnviarPassos`).
- `console.error`/`logger.info` output and the `SELECT` logging are omitted.
- A failing `COMMIT` is not modelled. In `saveAutomations`, `createDefaultAutomations` and the SQLite branch of `resetUsageIfNeeded`, only the statements before it can fail, and their errors are not observed.
- Subscriptions.UpdateUserPlan: reports the id that `RETURNING id` gives on Postgres, which is the conflicting row's id after an update. On SQLite the wrapper (src/database/database.js:13) reports the connection's last inserted rowid instead, a stale value after an update; the model does not track that rowid. The only caller, src/app.js:103, ignores the result.
- Subscriptions.ResetUsageIfNeeded: follows the SQLite branch. The Postgres branch (src/services/subscriptionService.js:47-57) is all-or-nothing and rejects on a failed update; that branch is not modelled.
- EnvioPassos.SortSteps: states that the result is sorted by `ordem` and a permutation of the input. It does not state that steps with equal `ordem` keep their order, as JavaScript's stable `sort` does. The insertion sort only moves a step past a strictly larger `ordem`, but that is not proved.
- FlowService.FlowTables.Rollback: restores the id counters with the rows. On Postgres, sequences are not rolled back, so ids taken inside a rolled-back transaction are skipped there.
- Users.RestoreUsers: restores the users table and its AUTOINCREMENT counter, as SQLite's ROLLBACK does. On Postgres the sequence is not rolled back, so a user id taken inside a rolled-back transaction is skipped.
- Users.CreateUserWithSubscription: a rolled-back registration gives its user id back (through `Users.RestoreUsers`), which holds for SQLite's AUTOINCREMENT but not for a Postgres sequence, which keeps advancing.
- `path.join` and `path.normalize` are modelled for POSIX paths only. The module's `__dirname` is the parameter `dirname` of the `WhatsApp` functions; `<public>` stands for the normal form of `dirname/../../public`.
- Users.DeleteUserCascade: treats a failure of any of the eight DELETEs as a rollback of all of them. In the source only an error of the last DELETE triggers `ROLLBACK`; the errors of the other statements are not observed.
- `createUser`: `Promise.all` runs the two default inserts concurrently. The model runs both, one after the other. Only the settings insert can reject, since the automations statements run without a callback; their interleaving with the settings insert is not modelled.
- Automations.SaveAutomations: takes the tenant id as an integer. The source's default `clienteId = null`, which would write rows without a tenant, is not modelled.
- Pedidos.CriarPedido: resolves with the new order's id only, not the whole object the source returns.
- `getProfilePicUrl` is called by `criarPedido` without a client, so the stored picture is always the default avatar; the model stores that constant.
- Lookups that no modelled property uses are not modelled:
  - in src/services/subscriptionService.js, `getUserSubscription` and `createSubscription`;
  - in src/services/userService.js, `findUserByEmail`, `findUserById`, `findUserByApiKey`, `regenerateApiKey` and `getAllUsers`;
  - in src/services/pedidoService.js, `getPedidoById`, `findPedidoByEmail`, `findPedidoByCodigo`, `getHistoricoPorPedidoId` and `getPedidosComCodigoAtivo`;
  - in src/services/flowService.js, `getFlowsByUser`, `getFlowById` and `deleteFlow`.
- The Sequelize models behind both flow engines and `flowService` are not defined in the database module. Each is modelled against its own in-memory store (`OrderFlow.OrderFlowStore`, `PhoneFlow.PhoneFlowStore`, `FlowService.FlowTables`). Destroying a flow's nodes leaves their options in the option table; a database-level cascade is not modelled.
- OrderFlow.ProcessMessage: every store statement succeeds in the model: the `UserFlowState`, `FlowNode`, `NodeOption` and `Flow` reads, and `state.update`, `state.destroy` and `UserFlowState.create`. Only the WhatsApp send can fail. The source awaits each statement without a `catch`, so a rejecting statement would end the call with the earlier effects kept (for example a node already sent while the state stays at the old node). That outcome is not modelled, and `OrderFlow.MoveToEffects` holds only under this assumption.
- PhoneFlow.ProcessMessage: the same holds for the phone-keyed engine (src/flows/flowEngineService.js). Its store reads and its `update`, `destroy` and `create` never reject in the model, so a send followed by a failing `state.update` is not modelled, and `PhoneFlow.MoveToEffects` holds only under this assumption.
- Websocket.Registry.BroadcastToUser: states that every open socket of the user gets the frame exactly once. It does not state the order of the frames, which follows the `Set`'s insertion order.
- Plan prices are `real` numbers, not IEEE floating point.
- rastreamentoService (the tracking API client) and the platform mappers are not part of this model. The tracking answer is the `tracker` parameter.
- Some test expectations describe behaviour that the code does not implement, and are not modelled:
  - `automacao_passos` rows after `createDefaultAutomations`;
  - `criarPedido` surviving a rejecting `getProfilePicUrl`.
