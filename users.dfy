/** Tenant accounts (`userService`): the partial update of a user, activation, the
    cascading delete of a tenant's rows from every table, and the two sign-up paths. The
    password hash (bcrypt) and the random API key are parameters. */
module Users {
  import opened Util
  import opened Db
  import opened DefaultMessages
  import Automations
  import IntegrationConfig
  import PlanService = Plans
  import SubscriptionService = Subscriptions

  // ---- updateUser ----

  /** The `fields` argument of `updateUser`: `None` is undefined. */
  datatype UserFields = UserFields(
    email: Option<string>, password: Option<string>,
    isAdmin: Option<int>, isActive: Option<int>, precisaTrocarSenha: Option<int>)

  /** The writable columns of `users`. */
  datatype UserColumn = EmailCol | PasswordCol | IsAdminCol | IsActiveCol | PrecisaTrocarSenhaCol

  /** A bound parameter of the UPDATE. */
  datatype Param = Text(s: string) | Flag(n: int)

  /** One pushed `column = ?` with its bound parameter. */
  type Assignment = (UserColumn, Param)

  /** One assignment applied to a row; a parameter of the wrong kind is never pushed for a
      column. */
  function SetColumn(u: User, a: Assignment): User
  {
    match a
    case (EmailCol, Text(s)) => u.(email := s)
    case (PasswordCol, Text(s)) => u.(password := s)
    case (IsAdminCol, Flag(n)) => u.(isAdmin := n)
    case (IsActiveCol, Flag(n)) => u.(isActive := n)
    case (PrecisaTrocarSenhaCol, Flag(n)) => u.(precisaTrocarSenha := n)
    case _ => u
  }

  /** The SET list applied left to right. */
  function Execute(u: User, sets: seq<Assignment>): User
    decreases |sets|
  {
    if sets == [] then u else Execute(SetColumn(u, sets[0]), sets[1..])
  }

  /** The row as the caller asked for it: `email` and `password` (hashed) replaced when
      truthy, the three flags when defined. */
  function Updated(u: User, fields: UserFields, hash: string -> string): User
  {
    u.(email := if Truthy(fields.email) then fields.email.value else u.email,
       password := if Truthy(fields.password) then hash(fields.password.value) else u.password,
       isAdmin := if fields.isAdmin.Some? then fields.isAdmin.value else u.isAdmin,
       isActive := if fields.isActive.Some? then fields.isActive.value else u.isActive,
       precisaTrocarSenha := if fields.precisaTrocarSenha.Some? then fields.precisaTrocarSenha.value else u.precisaTrocarSenha)
  }

  /** No assignment is pushed. */
  predicate NoneSet(fields: UserFields)
  {
    !Truthy(fields.email) && !Truthy(fields.password)
    && fields.isAdmin.None? && fields.isActive.None? && fields.precisaTrocarSenha.None?
  }

  /** The key constraint on `users.email`. */
  const DuplicateEmail := "UNIQUE constraint failed: users.email"

  /** Another user already holds `email`. */
  predicate EmailTaken(users: map<int, User>, id: int, email: string)
  {
    exists k :: k in users && k != id && users[k].email == email
  }

  /** `updateUser(db, id, fields)`: nothing runs when no assignment is pushed and the call
      resolves with nothing (`Ok(None)`); otherwise one UPDATE of row `id`, resolving with
      `{ changes }` (`Ok(Some(changes))`), the count of matched rows as the driver wrapper
      reports it, or rejecting when the new email belongs to another user. */
  function Update(users: map<int, User>, id: int, fields: UserFields, hash: string -> string, fails: bool, postgres: bool)
    : (Result<Option<Option<nat>>>, map<int, User>)
  {
    if NoneSet(fields) then (Ok(None), users)
    else if fails then (Err(StorageError), users)
    else if id !in users then (Ok(Some(Reported(postgres, 0))), users)
    else if Truthy(fields.email) && EmailTaken(users, id, fields.email.value) then (Err(DuplicateEmail), users)
    else (Ok(Some(Reported(postgres, 1))), users[id := Updated(users[id], fields, hash)])
  }

  /** `updateUser(db, id, fields)`: the SET list is pushed field by field, then run. */
  method UpdateUser(db: Database, id: int, fields: UserFields, hash: string -> string) returns (r: Result<Option<Option<nat>>>)
    requires db.Valid()
    modifies db`users
    ensures db.Valid()
    ensures (r, db.users) == Update(old(db.users), id, fields, hash, Users in db.writeFails, db.postgres)
  {
    var sets := PushAssignments(fields, hash);
    if sets == [] {
      return Ok(None);
    }
    if Users in db.writeFails {
      return Err(StorageError);
    }
    if id !in db.users {
      return Ok(Some(Reported(db.postgres, 0)));
    }
    if Truthy(fields.email) && exists k :: k in db.users && k != id && db.users[k].email == fields.email.value {
      return Err(DuplicateEmail);
    }
    ExecuteAssignments(db.users[id], fields, hash);
    UpdateKeepsUniqueEmails(db.users, id, fields, hash);
    db.users := db.users[id := Execute(db.users[id], sets)];
    return Ok(Some(Reported(db.postgres, 1)));
  }

  /** The `sets`/`params` pushes of `updateUser`, one assignment per given field. */
  method PushAssignments(fields: UserFields, hash: string -> string) returns (sets: seq<Assignment>)
    ensures sets == Assignments(fields, hash)
    ensures sets == [] <==> NoneSet(fields)
  {
    sets := [];
    if Truthy(fields.email) {
      sets := sets + [(EmailCol, Text(fields.email.value))];
    }
    if Truthy(fields.password) {
      var hashed := hash(fields.password.value);
      sets := sets + [(PasswordCol, Text(hashed))];
    }
    if fields.isAdmin.Some? {
      sets := sets + [(IsAdminCol, Flag(fields.isAdmin.value))];
    }
    if fields.isActive.Some? {
      sets := sets + [(IsActiveCol, Flag(fields.isActive.value))];
    }
    if fields.precisaTrocarSenha.Some? {
      sets := sets + [(PrecisaTrocarSenhaCol, Flag(fields.precisaTrocarSenha.value))];
    }
  }

  /** A SET list of at most one assignment. */
  function Opt(present: bool, a: Assignment): seq<Assignment>
  {
    if present then [a] else []
  }

  /** The SET list `updateUser` pushes for `fields`. */
  function Assignments(fields: UserFields, hash: string -> string): seq<Assignment>
  {
    Opt(Truthy(fields.email), (EmailCol, Text(OrEmpty(fields.email))))
    + Opt(Truthy(fields.password), (PasswordCol, Text(hash(OrEmpty(fields.password)))))
    + Opt(fields.isAdmin.Some?, (IsAdminCol, Flag(if fields.isAdmin.Some? then fields.isAdmin.value else 0)))
    + Opt(fields.isActive.Some?, (IsActiveCol, Flag(if fields.isActive.Some? then fields.isActive.value else 0)))
    + Opt(fields.precisaTrocarSenha.Some?,
          (PrecisaTrocarSenhaCol, Flag(if fields.precisaTrocarSenha.Some? then fields.precisaTrocarSenha.value else 0)))
  }

  /** Running two SET lists one after the other is running their concatenation. */
  lemma {:induction false} ExecuteConcat(u: User, a: seq<Assignment>, b: seq<Assignment>)
    ensures Execute(u, a + b) == Execute(Execute(u, a), b)
    decreases |a|
  {
    if a == [] {
      assert a + b == b;
    } else {
      assert (a + b)[1..] == a[1..] + b;
      ExecuteConcat(SetColumn(u, a[0]), a[1..], b);
    }
  }

  lemma ExecuteOpt(u: User, present: bool, a: Assignment)
    ensures Execute(u, Opt(present, a)) == if present then SetColumn(u, a) else u
  {
    if present {
      assert Opt(present, a)[1..] == [];
    }
  }

  /** The pushed SET list, executed, is the row the caller asked for. */
  lemma ExecuteAssignments(u: User, fields: UserFields, hash: string -> string)
    ensures Execute(u, Assignments(fields, hash)) == Updated(u, fields, hash)
  {
    var s1 := Opt(Truthy(fields.email), (EmailCol, Text(OrEmpty(fields.email))));
    var s2 := Opt(Truthy(fields.password), (PasswordCol, Text(hash(OrEmpty(fields.password)))));
    var s3 := Opt(fields.isAdmin.Some?, (IsAdminCol, Flag(if fields.isAdmin.Some? then fields.isAdmin.value else 0)));
    var s4 := Opt(fields.isActive.Some?, (IsActiveCol, Flag(if fields.isActive.Some? then fields.isActive.value else 0)));
    var s5 := Opt(fields.precisaTrocarSenha.Some?,
                  (PrecisaTrocarSenhaCol, Flag(if fields.precisaTrocarSenha.Some? then fields.precisaTrocarSenha.value else 0)));
    ExecuteConcat(u, s1 + s2 + s3 + s4, s5);
    ExecuteConcat(u, s1 + s2 + s3, s4);
    ExecuteConcat(u, s1 + s2, s3);
    ExecuteConcat(u, s1, s2);
    var u1 := Execute(u, s1);
    ExecuteOpt(u, Truthy(fields.email), (EmailCol, Text(OrEmpty(fields.email))));
    var u2 := Execute(u1, s2);
    ExecuteOpt(u1, Truthy(fields.password), (PasswordCol, Text(hash(OrEmpty(fields.password)))));
    var u3 := Execute(u2, s3);
    ExecuteOpt(u2, fields.isAdmin.Some?, (IsAdminCol, Flag(if fields.isAdmin.Some? then fields.isAdmin.value else 0)));
    var u4 := Execute(u3, s4);
    ExecuteOpt(u3, fields.isActive.Some?, (IsActiveCol, Flag(if fields.isActive.Some? then fields.isActive.value else 0)));
    ExecuteOpt(u4, fields.precisaTrocarSenha.Some?,
               (PrecisaTrocarSenhaCol, Flag(if fields.precisaTrocarSenha.Some? then fields.precisaTrocarSenha.value else 0)));
  }

  /** An accepted update keeps the emails unique. */
  lemma UpdateKeepsUniqueEmails(users: map<int, User>, id: int, fields: UserFields, hash: string -> string)
    requires UniqueEmails(users) && id in users
    requires Truthy(fields.email) ==> !EmailTaken(users, id, fields.email.value)
    ensures UniqueEmails(users[id := Updated(users[id], fields, hash)])
  {
    var after := users[id := Updated(users[id], fields, hash)];
    forall a, b | a in after && b in after && a != b ensures after[a].email != after[b].email {
      if a == id && Truthy(fields.email) {
        assert users[b].email != fields.email.value;
      } else if b == id && Truthy(fields.email) {
        assert users[a].email != fields.email.value;
      }
    }
  }

  /** With nothing to set, `updateUser` runs nothing and changes nothing. */
  lemma UpdateWithoutFieldsIsNoOp(users: map<int, User>, id: int, fields: UserFields, hash: string -> string, fails: bool, postgres: bool)
    requires NoneSet(fields)
    ensures Update(users, id, fields, hash, fails, postgres) == (Ok(None), users)
  {
  }

  /** An accepted update changes only row `id`, and in it writes `email` and `password`
      only when truthy, the password only as its hash, and each flag only when defined. */
  lemma UpdateWritesOnlyGivenFields(users: map<int, User>, id: int, fields: UserFields, hash: string -> string, postgres: bool)
    requires id in users && !NoneSet(fields)
    requires Truthy(fields.email) ==> !EmailTaken(users, id, fields.email.value)
    ensures var (r, after) := Update(users, id, fields, hash, false, postgres);
      && r == Ok(Some(Reported(postgres, 1)))
      && after.Keys == users.Keys
      && (forall k :: k in users && k != id ==> after[k] == users[k])
      && after[id].email == (if Truthy(fields.email) then fields.email.value else users[id].email)
      && after[id].password == (if Truthy(fields.password) then hash(fields.password.value) else users[id].password)
      && after[id].isAdmin == (if fields.isAdmin.Some? then fields.isAdmin.value else users[id].isAdmin)
      && after[id].isActive == (if fields.isActive.Some? then fields.isActive.value else users[id].isActive)
      && after[id].precisaTrocarSenha == (if fields.precisaTrocarSenha.Some? then fields.precisaTrocarSenha.value else users[id].precisaTrocarSenha)
      && after[id].apiKey == users[id].apiKey
  {
  }

  /** An update that names another user's email is refused and changes nothing. */
  lemma UpdateRefusesTakenEmail(users: map<int, User>, id: int, fields: UserFields, hash: string -> string, postgres: bool, other: int)
    requires id in users && other in users && other != id
    requires fields.email == Some(users[other].email) && users[other].email != ""
    ensures Update(users, id, fields, hash, false, postgres) == (Err(DuplicateEmail), users)
  {
    assert EmailTaken(users, id, fields.email.value);
  }

  // ---- setUserActive ----

  /** The fields `setUserActive` passes on. */
  function OnlyActive(active: int): UserFields
  {
    UserFields(None, None, None, Some(active), None)
  }

  /** `setUserActive(db, id, active)` is `updateUser(db, id, { is_active: active })`. */
  method SetUserActive(db: Database, id: int, active: int, hash: string -> string) returns (r: Result<Option<Option<nat>>>)
    requires db.Valid()
    modifies db`users
    ensures db.Valid()
    ensures (r, db.users) == Update(old(db.users), id, OnlyActive(active), hash, Users in db.writeFails, db.postgres)
  {
    r := UpdateUser(db, id, OnlyActive(active), hash);
  }

  /** Activation always runs one UPDATE, which sets `is_active` of row `id`, keeps every
      other column, and does not depend on the hash. */
  lemma ActivationSetsOnlyIsActive(users: map<int, User>, id: int, active: int, hash: string -> string, hash': string -> string, postgres: bool)
    ensures Update(users, id, OnlyActive(active), hash, false, postgres)
         == Update(users, id, OnlyActive(active), hash', false, postgres)
    ensures id in users ==>
      Update(users, id, OnlyActive(active), hash, false, postgres)
        == (Ok(Some(Reported(postgres, 1))), users[id := users[id].(isActive := active)])
    ensures id !in users ==> Update(users, id, OnlyActive(active), hash, false, postgres) == (Ok(Some(Reported(postgres, 0))), users)
  {
  }

  // ---- deleteUserCascade ----

  /** The eight tables the cascade deletes from, in its order. */
  const CascadeTables: set<Table> :=
    {Historico, Pedidos, Logs, Automacoes, Subscriptions, IntegrationSettings, UserSettings, Users}

  function NotOfHistorico(userId: int): HistoricoEntry -> bool { (h: HistoricoEntry) => h.clienteId != Some(userId) }
  function NotOfPedido(userId: int): Pedido -> bool { (p: Pedido) => p.clienteId != Some(userId) }
  function NotOfLog(userId: int): LogEntry -> bool { (l: LogEntry) => l.clienteId != Some(userId) }

  /** `DELETE FROM automacoes WHERE cliente_id = ?` */
  function DeleteAutomacoes(rows: map<(string, int), AutomationRow>, userId: int): map<(string, int), AutomationRow>
  {
    map k | k in rows && k.1 != userId :: rows[k]
  }

  /** `DELETE FROM subscriptions WHERE user_id = ?` */
  function DeleteSubscriptions(subs: map<int, Subscription>, userId: int): map<int, Subscription>
  {
    map k | k in subs && subs[k].userId != userId :: subs[k]
  }

  /** `deleteUserCascade(db, userId)`: the eight DELETEs in one transaction. */
  method DeleteUserCascade(db: Database, userId: int) returns (r: Outcome)
    requires db.Valid()
    modifies db`historico, db`pedidos, db`logs, db`automacoes, db`subscriptions,
             db`integrationSettings, db`userSettings, db`users
    ensures db.Valid()
    ensures CascadeTables * db.writeFails != {} ==> r == Fail(StorageError) && unchanged(db)
    ensures CascadeTables * db.writeFails == {} ==> r == Pass
    ensures CascadeTables * db.writeFails == {} ==> db.historico == Filter(old(db.historico), NotOfHistorico(userId))
    ensures CascadeTables * db.writeFails == {} ==> db.pedidos == Filter(old(db.pedidos), NotOfPedido(userId))
    ensures CascadeTables * db.writeFails == {} ==> db.logs == Filter(old(db.logs), NotOfLog(userId))
    ensures CascadeTables * db.writeFails == {} ==> db.automacoes == DeleteAutomacoes(old(db.automacoes), userId)
    ensures CascadeTables * db.writeFails == {} ==> db.subscriptions == DeleteSubscriptions(old(db.subscriptions), userId)
    ensures CascadeTables * db.writeFails == {} ==> db.integrationSettings == old(db.integrationSettings) - {userId}
    ensures CascadeTables * db.writeFails == {} ==> db.userSettings == old(db.userSettings) - {userId}
    ensures CascadeTables * db.writeFails == {} ==> db.users == old(db.users) - {userId}
  {
    if CascadeTables * db.writeFails != {} {
      return Fail(StorageError);
    }
    DeleteOrders(db, userId);
    DeleteLogsAndSettings(db, userId);
    DeleteSubscriptionsAndUser(db, userId);
    return Pass;
  }

  /** The DELETEs from `logs`, `automacoes`, `integration_settings` and `user_settings`,
      tables no invariant constrains. */
  method DeleteLogsAndSettings(db: Database, userId: int)
    requires db.Valid()
    modifies db`logs, db`automacoes, db`integrationSettings, db`userSettings
    ensures db.Valid()
    ensures db.logs == Filter(old(db.logs), NotOfLog(userId))
    ensures db.automacoes == DeleteAutomacoes(old(db.automacoes), userId)
    ensures db.integrationSettings == old(db.integrationSettings) - {userId}
    ensures db.userSettings == old(db.userSettings) - {userId}
  {
    db.logs := Filter(db.logs, NotOfLog(userId));
    db.automacoes := DeleteAutomacoes(db.automacoes, userId);
    db.integrationSettings := db.integrationSettings - {userId};
    db.userSettings := db.userSettings - {userId};
  }

  /** `DELETE FROM historico_mensagens WHERE cliente_id = ?` and
      `DELETE FROM pedidos WHERE cliente_id = ?` */
  method DeleteOrders(db: Database, userId: int)
    requires db.Valid()
    modifies db`historico, db`pedidos
    ensures db.Valid()
    ensures db.historico == Filter(old(db.historico), NotOfHistorico(userId))
    ensures db.pedidos == Filter(old(db.pedidos), NotOfPedido(userId))
  {
    FilterKeepsHistoricoIds(db.historico, NotOfHistorico(userId), db.nextHistoricoId);
    assert var r := Filter(db.historico, NotOfHistorico(userId)); forall i :: 0 <= i < |r| ==> r[i].id < db.nextHistoricoId;
    FilterKeepsPedidosValid(db.pedidos, NotOfPedido(userId), db.nextPedidoId);
    db.historico := Filter(db.historico, NotOfHistorico(userId));
    db.pedidos := Filter(db.pedidos, NotOfPedido(userId));
  }

  /** `DELETE FROM subscriptions WHERE user_id = ?` and `DELETE FROM users WHERE id = ?` */
  method DeleteSubscriptionsAndUser(db: Database, userId: int)
    requires db.Valid()
    modifies db`subscriptions, db`users
    ensures db.Valid()
    ensures db.subscriptions == DeleteSubscriptions(old(db.subscriptions), userId)
    ensures db.users == old(db.users) - {userId}
  {
    DeleteKeepsKeys(db.subscriptions, db.users, userId, db.nextSubscriptionId, db.nextUserId);
    db.subscriptions := DeleteSubscriptions(db.subscriptions, userId);
    db.users := db.users - {userId};
  }

  /** Deleting rows of `pedidos` keeps its row order, its unique index and its row types. */
  lemma FilterKeepsPedidosValid(ps: seq<Pedido>, keep: Pedido -> bool, nextId: int)
    requires IncreasingIds(ps) && UniquePhonePerTenant(ps)
    requires forall i :: 0 <= i < |ps| ==> ps[i].id < nextId && WellTyped(ps[i])
    ensures var r := Filter(ps, keep);
      && IncreasingIds(r) && UniquePhonePerTenant(r)
      && (forall i :: 0 <= i < |r| ==> r[i].id < nextId && WellTyped(r[i]))
  {
    FilterPairwise(ps, keep, (a: Pedido, b: Pedido) => a.id < b.id);
    FilterPairwise(ps, keep, (a: Pedido, b: Pedido) => a.clienteId.None? || a.clienteId != b.clienteId || Get(a, Telefone) != Get(b, Telefone));
    var r := Filter(ps, keep);
    forall i | 0 <= i < |r| ensures r[i].id < nextId && WellTyped(r[i]) {
      assert r[i] in r;
      var m :| 0 <= m < |ps| && ps[m] == r[i];
    }
  }

  /** Deleting keyed rows keeps the keys below the next ones and the unique columns unique. */
  lemma DeleteKeepsKeys(subs: map<int, Subscription>, users: map<int, User>, userId: int, nextSub: int, nextUser: int)
    requires UniqueSubscriptionUsers(subs) && UniqueEmails(users)
    requires (forall k :: k in subs ==> k < nextSub) && (forall k :: k in users ==> k < nextUser)
    ensures UniqueSubscriptionUsers(DeleteSubscriptions(subs, userId)) && UniqueEmails(users - {userId})
    ensures forall k :: k in DeleteSubscriptions(subs, userId) ==> k < nextSub
    ensures forall k :: k in users - {userId} ==> k < nextUser
  {
  }

  /** Deleting rows of `historico_mensagens` keeps its ids below the next one. */
  lemma FilterKeepsHistoricoIds(hs: seq<HistoricoEntry>, keep: HistoricoEntry -> bool, nextId: int)
    requires forall i :: 0 <= i < |hs| ==> hs[i].id < nextId
    ensures var r := Filter(hs, keep); forall i :: 0 <= i < |r| ==> r[i].id < nextId
  {
    var r := Filter(hs, keep);
    forall i | 0 <= i < |r| ensures r[i].id < nextId {
      assert r[i] in r;
      var m :| 0 <= m < |hs| && hs[m] == r[i];
    }
  }

  /** After the cascade no row of any of the eight tables belongs to the tenant, and every
      row of every other tenant is still there. */
  lemma CascadeRemovesEveryTrace(
    historico: seq<HistoricoEntry>, pedidos: seq<Pedido>, logs: seq<LogEntry>,
    automacoes: map<(string, int), AutomationRow>, subs: map<int, Subscription>,
    settings: map<int, IntegrationSetting>, userSettings: map<int, int>, users: map<int, User>, userId: int)
    ensures forall h :: h in Filter(historico, NotOfHistorico(userId)) <==> h in historico && h.clienteId != Some(userId)
    ensures forall p :: p in Filter(pedidos, NotOfPedido(userId)) <==> p in pedidos && p.clienteId != Some(userId)
    ensures forall l :: l in Filter(logs, NotOfLog(userId)) <==> l in logs && l.clienteId != Some(userId)
    ensures forall k :: k in DeleteAutomacoes(automacoes, userId) <==> k in automacoes && k.1 != userId
    ensures forall k :: k in DeleteSubscriptions(subs, userId) <==> k in subs && subs[k].userId != userId
    ensures forall k :: k in DeleteSubscriptions(subs, userId) ==> DeleteSubscriptions(subs, userId)[k] == subs[k]
    ensures forall k :: k in DeleteAutomacoes(automacoes, userId) ==> DeleteAutomacoes(automacoes, userId)[k] == automacoes[k]
    ensures userId !in settings - {userId} && userId !in userSettings - {userId} && userId !in users - {userId}
  {
    assert forall h :: NotOfHistorico(userId)(h) == (h.clienteId != Some(userId));
    assert forall p :: NotOfPedido(userId)(p) == (p.clienteId != Some(userId));
    assert forall l :: NotOfLog(userId)(l) == (l.clienteId != Some(userId));
  }

  // ---- createUser ----

  /** The object `createUser` resolves with. */
  datatype CreatedUser = CreatedUser(id: int, email: string, apiKey: string, isAdmin: int, isActive: int, precisaTrocarSenha: int)

  /** Some user holds `email`. */
  predicate EmailInUse(users: map<int, User>, email: string)
  {
    exists k :: k in users && users[k].email == email
  }

  /** `createUser(db, email, password, isAdmin, isActive, needsPasswordChange)`: one INSERT
      into `users`, then the default integration settings and the default automations of
      the new id, both started together; a failing settings insert rejects the call, and the
      user row stays. The new id is the wrapper's `lastID`, undefined on Postgres, where the
      settings row then has a NULL primary key and is refused. `apiKey` is the freshly generated
      key, `defaultKey` the deployment's default tracking key. */
  method CreateUser(db: Database, email: string, password: string, isAdmin: int, isActive: int, needsPasswordChange: int,
                    hash: string -> string, apiKey: string, defaultKey: Option<string>) returns (r: Result<CreatedUser>)
    requires db.Valid()
    modifies db`users, db`nextUserId, db`integrationSettings, db`automacoes
    ensures db.Valid()
    ensures Users in db.writeFails || EmailInUse(old(db.users), email) ==>
      && r == Err(if Users in db.writeFails then StorageError else DuplicateEmail)
      && db.users == old(db.users) && db.nextUserId == old(db.nextUserId)
      && db.integrationSettings == old(db.integrationSettings) && db.automacoes == old(db.automacoes)
    ensures Users !in db.writeFails && !EmailInUse(old(db.users), email) ==>
      var id := old(db.nextUserId);
      && db.users == old(db.users)[id := User(email, hash(password), Some(apiKey), isAdmin, isActive, needsPasswordChange)]
      && db.nextUserId == id + 1
      && (db.postgres ==>
            && r == Err(IntegrationConfig.NullUserId)
            && db.integrationSettings == old(db.integrationSettings) && db.automacoes == old(db.automacoes))
      && (!db.postgres && IntegrationSettings !in db.writeFails && id !in old(db.integrationSettings) ==>
            db.integrationSettings == old(db.integrationSettings)[id := IntegrationConfig.DefaultRow(defaultKey)])
      && (!db.postgres && Automacoes !in db.writeFails ==> db.automacoes == Automations.Seeded(Templates, old(db.automacoes), id))
      && (Automacoes in db.writeFails ==> db.automacoes == old(db.automacoes))
      && (r.Ok? <==> !db.postgres && IntegrationSettings !in db.writeFails && id !in old(db.integrationSettings))
      && (r.Ok? ==> r.value == CreatedUser(id, email, apiKey, isAdmin, isActive, needsPasswordChange))
  {
    if Users in db.writeFails {
      return Err(StorageError);
    }
    if exists k :: k in db.users && db.users[k].email == email {
      return Err(DuplicateEmail);
    }
    var userId := InsertUser(db, User(email, hash(password), Some(apiKey), isAdmin, isActive, needsPasswordChange));
    var lastId := InsertedId(db.postgres, userId);
    if lastId.None? {
      // `createDefault(db, undefined)` is refused, and the automation seed writes nothing on Postgres
      return Err(IntegrationConfig.NullUserId);
    }
    var seeded := SeedTenant(db, lastId.value, defaultKey);
    if seeded.Fail? {
      return Err(seeded.error);
    }
    return Ok(CreatedUser(lastId.value, email, apiKey, isAdmin, isActive, needsPasswordChange));
  }

  /** `Promise.all([createDefault(db, userId), createDefaultAutomations(db, userId)])`: both
      inserts run; the call rejects when either does, and only the settings insert can,
      since the automations transaction does not observe its statements' errors. */
  method SeedTenant(db: Database, userId: int, defaultKey: Option<string>) returns (r: Outcome)
    requires db.Valid()
    modifies db`integrationSettings, db`automacoes
    ensures db.Valid()
    ensures IntegrationSettings !in db.writeFails && userId !in old(db.integrationSettings) ==>
      db.integrationSettings == old(db.integrationSettings)[userId := IntegrationConfig.DefaultRow(defaultKey)]
    ensures Automacoes !in db.writeFails && !db.postgres ==> db.automacoes == Automations.Seeded(Templates, old(db.automacoes), userId)
    ensures Automacoes in db.writeFails || db.postgres ==> db.automacoes == old(db.automacoes)
    ensures r == Pass <==> IntegrationSettings !in db.writeFails && userId !in old(db.integrationSettings)
  {
    var settings := IntegrationConfig.CreateDefault(db, userId, defaultKey);
    var automations := Automations.CreateDefaultAutomations(db, userId);
    if settings.Fail? {
      return settings;
    }
    return automations;
  }

  /** The INSERT into `users` of a row whose email nobody holds: the new id is the next
      AUTOINCREMENT value. */
  method InsertUser(db: Database, u: User) returns (id: int)
    requires db.Valid() && !EmailInUse(db.users, u.email)
    modifies db`users, db`nextUserId
    ensures db.Valid()
    ensures id == old(db.nextUserId) && db.nextUserId == id + 1 && db.users == old(db.users)[id := u]
  {
    id := db.nextUserId;
    InsertKeepsUniqueEmails(db.users, id, u);
    db.users := db.users[id := u];
    db.nextUserId := id + 1;
  }

  /** Inserting a row whose email nobody holds keeps the emails unique. */
  lemma InsertKeepsUniqueEmails(users: map<int, User>, id: int, u: User)
    requires UniqueEmails(users) && id !in users && !EmailInUse(users, u.email)
    ensures UniqueEmails(users[id := u])
  {
    var after := users[id := u];
    forall a, b | a in after && b in after && a != b ensures after[a].email != after[b].email {
      if a == id {
        assert b in users;
      } else if b == id {
        assert a in users;
      }
    }
  }

  // ---- createUserWithSubscription ----

  /** The message every failed registration rejects with. */
  const RegistrationFailed := "Não foi possível registrar o usuário."

  /** The user row of a registration: only email, hash and `is_active` are given, so the
      remaining columns take their defaults (no API key, not admin, must change password). */
  function Registered(email: string, hashed: string): User
  {
    User(email, hashed, None, 0, 1, 1)
  }

  /** The subscription row of a registration: plan 1, active, with the column defaults. */
  function FreeSubscription(userId: int): Subscription
  {
    Subscription(userId, PlanService.FreePlanId, "active", 0, None)
  }

  /** `createUserWithSubscription(db, email, password)`: inside one transaction, seed the
      free plan, insert the user and its plan-1 subscription, and commit; on any failure
      roll back and reject with a fixed message. The user's id reaches the subscription insert
      as the wrapper's `lastID`; on Postgres it is undefined, the NOT NULL `user_id` refuses
      it, and the registration always rolls back. */
  method CreateUserWithSubscription(db: Database, email: string, password: string, hash: string -> string)
    returns (r: Result<int>)
    requires db.Valid()
    modifies db`plans, db`users, db`nextUserId, db`subscriptions, db`nextSubscriptionId
    ensures db.Valid()
    ensures r.Err? ==> r.error == RegistrationFailed
    ensures r.Err? ==> db.plans == old(db.plans) && db.users == old(db.users) && db.nextUserId == old(db.nextUserId)
    ensures r.Err? ==> db.subscriptions == old(db.subscriptions) && db.nextSubscriptionId == old(db.nextSubscriptionId)
    ensures r.Ok? <==>
      && Plans !in db.readFails
      && (PlanService.FreePlanId in old(db.plans) || Plans !in db.writeFails)
      && Users !in db.writeFails && !EmailInUse(old(db.users), email)
      && !db.postgres
      && Subscriptions !in db.writeFails && !SubscriptionService.HasSubscription(old(db.subscriptions), old(db.nextUserId))
    ensures r.Ok? ==> r.value == old(db.nextUserId) && db.plans == PlanService.Ensured(old(db.plans))
    ensures r.Ok? ==> db.users == old(db.users)[r.value := Registered(email, hash(password))]
    ensures r.Ok? ==> db.nextUserId == r.value + 1
    ensures r.Ok? ==> db.subscriptions == old(db.subscriptions)[old(db.nextSubscriptionId) := FreeSubscription(r.value)]
    ensures r.Ok? ==> db.nextSubscriptionId == old(db.nextSubscriptionId) + 1
    ensures r.Ok? ==> forall k :: k in db.subscriptions && db.subscriptions[k].userId == r.value ==>
      db.subscriptions[k] == FreeSubscription(r.value)
  {
    var plans0, users0, nextUser0 := db.plans, db.users, db.nextUserId;
    assert UniqueEmails(users0) && forall k :: k in users0 ==> k < nextUser0;
    var seeded := PlanService.EnsureFreePlan(db);
    if seeded.Fail? {
      return Err(RegistrationFailed);
    }
    if Users in db.writeFails || EmailInUse(db.users, email) {
      db.SetPlans(plans0);
      return Err(RegistrationFailed);
    }
    var userId := InsertUser(db, Registered(email, hash(password)));
    var lastId := InsertedId(db.postgres, userId);
    if lastId.None? || Subscriptions in db.writeFails || SubscriptionService.HasSubscription(db.subscriptions, userId) {
      db.SetPlans(plans0);
      RestoreUsers(db, users0, nextUser0);
      return Err(RegistrationFailed);
    }
    InsertSubscription(db, FreeSubscription(lastId.value));
    return Ok(lastId.value);
  }

  /** The ROLLBACK of an INSERT into `users`: the table and its AUTOINCREMENT counter as
      they were. */
  method RestoreUsers(db: Database, users: map<int, User>, nextId: int)
    requires db.Valid() && UniqueEmails(users) && forall k :: k in users ==> k < nextId
    modifies db`users, db`nextUserId
    ensures db.Valid() && db.users == users && db.nextUserId == nextId
  {
    db.users, db.nextUserId := users, nextId;
  }

  /** The INSERT into `subscriptions` of a row for a user without one: the new id is the
      next AUTOINCREMENT value. */
  method InsertSubscription(db: Database, s: Subscription)
    requires db.Valid() && !SubscriptionService.HasSubscription(db.subscriptions, s.userId)
    modifies db`subscriptions, db`nextSubscriptionId
    ensures db.Valid()
    ensures db.subscriptions == old(db.subscriptions)[old(db.nextSubscriptionId) := s]
    ensures db.nextSubscriptionId == old(db.nextSubscriptionId) + 1
    ensures forall k :: k in db.subscriptions && db.subscriptions[k].userId == s.userId ==> db.subscriptions[k] == s
  {
    var id := db.nextSubscriptionId;
    assert forall k :: k in db.subscriptions ==> db.subscriptions[k].userId != s.userId;
    db.subscriptions := db.subscriptions[id := s];
    db.nextSubscriptionId := id + 1;
  }
}
