/** The relational store behind every service: one row datatype per table and a
    `Database` object whose fields are the tables. Tables with a declared primary key are
    maps from that key; `pedidos`, `historico_mensagens` and `logs` are sequences in
    insertion (AUTOINCREMENT) order. */
module Db {
  import opened Util

  /** The tables, used to name where a simulated statement failure happens. */
  datatype Table =
    | Pedidos | Historico | Logs | Automacoes | Subscriptions
    | Users | IntegrationSettings | UserSettings | Plans

  /** A value stored in a column of `pedidos`. An instant written with `toISOString()`
      is kept as its millisecond count (`Time`), since every reader parses it back. */
  datatype Value = Null | Str(s: string) | Int(i: int) | Time(ms: int)

  /** JavaScript truthiness of a column value read back from the driver. */
  predicate IsTruthy(v: Value)
  {
    match v
    case Null => false
    case Str(s) => s != ""
    case Int(i) => i != 0
    case Time(_) => true
  }

  /** The columns of `pedidos` besides the keys `id` and `cliente_id`. */
  datatype Column =
    | Nome | Email | Telefone | Produto | CodigoRastreio | DataPostagem | StatusInterno
    | UltimaAtualizacao | UltimaLocalizacao | OrigemUltimaMovimentacao | DestinoUltimaMovimentacao
    | DescricaoUltimoEvento | MensagemUltimoStatus | Notas | FotoPerfilUrl | UltimaMensagem
    | MensagensNaoLidas | CheckCount | AlertSent
    | DataCriacao | DataUltimaMensagem | LastCheckedAt | StatusChangeAt

  /** The type a column holds. */
  datatype Kind = TextKind | IntKind | TimeKind

  function KindOf(c: Column): Kind
  {
    match c
    case MensagensNaoLidas | CheckCount | AlertSent => IntKind
    case DataCriacao | DataUltimaMensagem | LastCheckedAt | StatusChangeAt => TimeKind
    case _ => TextKind
  }

  /** The column's name in SQL and in JavaScript objects. */
  function ColumnName(c: Column): string
  {
    match c
    case Nome => "nome" case Email => "email" case Telefone => "telefone"
    case Produto => "produto" case CodigoRastreio => "codigoRastreio"
    case DataPostagem => "dataPostagem" case StatusInterno => "statusInterno"
    case UltimaAtualizacao => "ultimaAtualizacao" case UltimaLocalizacao => "ultimaLocalizacao"
    case OrigemUltimaMovimentacao => "origemUltimaMovimentacao"
    case DestinoUltimaMovimentacao => "destinoUltimaMovimentacao"
    case DescricaoUltimoEvento => "descricaoUltimoEvento"
    case MensagemUltimoStatus => "mensagemUltimoStatus" case Notas => "notas"
    case FotoPerfilUrl => "fotoPerfilUrl" case UltimaMensagem => "ultimaMensagem"
    case MensagensNaoLidas => "mensagensNaoLidas" case CheckCount => "checkCount"
    case AlertSent => "alertSent" case DataCriacao => "dataCriacao"
    case DataUltimaMensagem => "dataUltimaMensagem" case LastCheckedAt => "lastCheckedAt"
    case StatusChangeAt => "statusChangeAt"
  }

  /** A value fits a column when it is NULL or of the column's kind. */
  predicate Fits(c: Column, v: Value)
  {
    match v
    case Null => true
    case Str(_) => KindOf(c) == TextKind
    case Int(_) => KindOf(c) == IntKind
    case Time(_) => KindOf(c) == TimeKind
  }

  /** A row of `pedidos`: its key, its tenant and its other columns (an absent column is NULL). */
  datatype Pedido = Pedido(id: int, clienteId: Option<int>, cols: map<Column, Value>)

  function Get(p: Pedido, c: Column): Value
  {
    if c in p.cols then p.cols[c] else Null
  }

  /** A text column as a nullable string. */
  function StrCol(p: Pedido, c: Column): (r: Option<string>)
    ensures r.Some? <==> Get(p, c).Str?
    ensures r.Some? ==> Get(p, c) == Str(r.value)
  {
    match Get(p, c)
    case Str(s) => Some(s)
    case _ => None
  }

  /** An instant column as a nullable millisecond count. */
  function TimeCol(p: Pedido, c: Column): (r: Option<int>)
    ensures r.Some? <==> Get(p, c).Time?
    ensures r.Some? ==> Get(p, c) == Time(r.value)
  {
    match Get(p, c)
    case Time(ms) => Some(ms)
    case _ => None
  }

  /** An integer column read with `x || 0`. */
  function IntOrZero(p: Pedido, c: Column): int
  {
    match Get(p, c)
    case Int(i) => i
    case _ => 0
  }

  /** Every stored column holds a value of its kind; `telefone` is NOT NULL. */
  predicate WellTyped(p: Pedido)
  {
    && (forall c :: c in p.cols ==> Fits(c, p.cols[c]))
    && Get(p, Telefone).Str?
  }

  /** A row of `historico_mensagens`. */
  datatype HistoricoEntry = HistoricoEntry(
    id: int,
    pedidoId: int,
    clienteId: Option<int>,
    mensagem: string,
    tipoMensagem: string,
    origem: string,
    mediaUrl: Option<string>,
    messageType: string)

  /** The JSON `detalhe` of a log row, kept as structure rather than text. */
  datatype LogDetail =
    | Dispatched(pedidoId: int, tipo: string)
    | Tracked(pedidoId: int, status: string)
    | TrackingFailed(pedidoId: int, erro: string)

  /** A row of `logs`. */
  datatype LogEntry = LogEntry(clienteId: Option<int>, acao: string, detalhe: LogDetail)

  /** The non-key columns of a row of `automacoes`, whose key is (gatilho, cliente_id). */
  datatype AutomationRow = AutomationRow(ativo: int, mensagem: Option<string>)

  /** The non-key columns of a row of `subscriptions`; `renewalDate` is the instant of the renewal day's start. */
  datatype Subscription = Subscription(userId: int, planId: int, status: string, usage: int, renewalDate: Option<int>)

  /** The non-key columns of a row of `users`; `password` holds a hash, never the clear text. */
  datatype User = User(
    email: string, password: string, apiKey: Option<string>,
    isAdmin: int, isActive: int, precisaTrocarSenha: int)

  /** The non-key columns of a row of `integration_settings`, whose key is `user_id`. */
  datatype IntegrationSetting = IntegrationSetting(
    postbackSecret: Option<string>, rastreioApiKey: Option<string>, webhookUrl: Option<string>)

  /** The non-key columns of a row of `plans`. */
  datatype Plan = Plan(name: string, price: real, monthlyLimit: int, checkoutUrl: Option<string>)

  /** Rows are kept in increasing `id` order, so ids are distinct. */
  predicate IncreasingIds(ps: seq<Pedido>)
  {
    forall i, j :: 0 <= i < j < |ps| ==> ps[i].id < ps[j].id
  }

  /** The unique index on (cliente_id, telefone) of `pedidos`. As in every SQL unique
      index, a NULL `cliente_id` equals nothing, so orders without a tenant never clash. */
  predicate UniquePhonePerTenant(ps: seq<Pedido>)
  {
    forall i, j :: 0 <= i < j < |ps| ==>
      ps[i].clienteId.None? || ps[i].clienteId != ps[j].clienteId || Get(ps[i], Telefone) != Get(ps[j], Telefone)
  }

  /** `subscriptions.user_id` is unique. */
  ghost predicate UniqueSubscriptionUsers(ss: map<int, Subscription>)
  {
    forall a, b :: a in ss && b in ss && a != b ==> ss[a].userId != ss[b].userId
  }

  /** `users.email` is unique. */
  ghost predicate UniqueEmails(us: map<int, User>)
  {
    forall a, b :: a in us && b in us && a != b ==> us[a].email != us[b].email
  }

  /** The database. `readFails` and `writeFails` name the tables on which a statement
      rejects, which is how the model injects the storage errors the source reacts to. */
  class Database {
    var pedidos: seq<Pedido>
    var historico: seq<HistoricoEntry>
    var logs: seq<LogEntry>
    var automacoes: map<(string, int), AutomationRow>
    var subscriptions: map<int, Subscription>
    var users: map<int, User>
    var integrationSettings: map<int, IntegrationSetting>
    var userSettings: map<int, int>
    var plans: map<int, Plan>
    /** The next value of each AUTOINCREMENT key. */
    var nextPedidoId: int
    var nextHistoricoId: int
    var nextUserId: int
    var nextSubscriptionId: int
    const readFails: set<Table>
    const writeFails: set<Table>
    /** `DB_CLIENT === 'postgres'`: the dialect behind the driver wrapper (SQLite otherwise). */
    const postgres: bool

    /** The table invariants the schema enforces. */
    ghost predicate Valid()
      reads this
    {
      && IncreasingIds(pedidos)
      && UniquePhonePerTenant(pedidos)
      && (forall i :: 0 <= i < |pedidos| ==> pedidos[i].id < nextPedidoId && WellTyped(pedidos[i]))
      && (forall i :: 0 <= i < |historico| ==> historico[i].id < nextHistoricoId)
      && (forall k :: k in users ==> k < nextUserId)
      && (forall k :: k in subscriptions ==> k < nextSubscriptionId)
      && UniqueSubscriptionUsers(subscriptions)
      && UniqueEmails(users)
    }

    constructor (readFails: set<Table>, writeFails: set<Table>, postgres: bool)
      ensures Valid()
      ensures pedidos == [] && historico == [] && logs == [] && automacoes == map[]
      ensures subscriptions == map[] && users == map[] && integrationSettings == map[]
      ensures userSettings == map[] && plans == map[]
      ensures this.readFails == readFails && this.writeFails == writeFails && this.postgres == postgres
    {
      pedidos, historico, logs, automacoes := [], [], [], map[];
      subscriptions, users, integrationSettings, userSettings, plans := map[], map[], map[], map[], map[];
      nextPedidoId, nextHistoricoId, nextUserId, nextSubscriptionId := 1, 1, 1, 1;
      this.readFails := readFails;
      this.writeFails := writeFails;
      this.postgres := postgres;
    }

    /** A write to `pedidos` that keeps the table's keys, unique index and column types. */
    method SetPedidos(rows: seq<Pedido>)
      requires Valid()
      requires IncreasingIds(rows) && UniquePhonePerTenant(rows)
      requires forall i :: 0 <= i < |rows| ==> rows[i].id < nextPedidoId && WellTyped(rows[i])
      modifies this`pedidos
      ensures Valid() && pedidos == rows
    {
      pedidos := rows;
    }

    /** A write to `automacoes`, a table no invariant constrains. */
    method SetAutomacoes(rows: map<(string, int), AutomationRow>)
      requires Valid()
      modifies this`automacoes
      ensures Valid() && automacoes == rows
    {
      automacoes := rows;
    }

    /** A write to `plans`, a table no invariant constrains. */
    method SetPlans(rows: map<int, Plan>)
      requires Valid()
      modifies this`plans
      ensures Valid() && plans == rows
    {
      plans := rows;
    }

    /** `logService.addLog`: one INSERT into `logs`. */
    method AddLog(clienteId: Option<int>, acao: string, detalhe: LogDetail) returns (r: Outcome)
      modifies this`logs
      ensures Logs in writeFails ==> r == Fail(StorageError) && logs == old(logs)
      ensures Logs !in writeFails ==> r == Pass && logs == old(logs) + [LogEntry(clienteId, acao, detalhe)]
    {
      if Logs in writeFails {
        return Fail(StorageError);
      }
      logs := logs + [LogEntry(clienteId, acao, detalhe)];
      return Pass;
    }
  }

  /** `pedido.cliente_id || 1`, the tenant a log row is written for. */
  function LogTenant(clienteId: Option<int>): int
  {
    if clienteId.Some? && clienteId.value != 0 then clienteId.value else 1
  }

  /** The message of a rejected statement. */
  const StorageError := "SQLITE_ERROR"

  /** The `changes` a statement's callback sees through the driver wrapper, which sets it to
      `meta.rowCount || meta.affectedRows` (`None` stands for undefined). The SQLite driver's
      metadata carries neither property, so on SQLite it is always undefined; on Postgres it
      is the row count, except that a count of 0 is falsy and gives undefined too. */
  function Reported(postgres: bool, rows: nat): (r: Option<nat>)
    ensures !postgres ==> r == None
    ensures r.Some? <==> postgres && rows > 0
    ensures r.Some? ==> r.value == rows
  {
    if postgres && rows > 0 then Some(rows) else None
  }

  /** The `lastID` an INSERT's callback sees through the driver wrapper, which sets it to
      `meta.lastID || meta.insertId`, or else to the `id` of the first returned row (`None`
      stands for undefined). SQLite's metadata carries the new rowid `id`, which AUTOINCREMENT
      starts at 1 and so never makes falsy; Postgres metadata has neither property, and an
      INSERT without `RETURNING id` returns no row. */
  function InsertedId(postgres: bool, id: int): (r: Option<int>)
    ensures r.Some? <==> !postgres
    ensures r.Some? ==> r.value == id
  {
    if postgres then None else Some(id)
  }

  /** A statement's settled outcome as the callback passes it on: a rejection unchanged, a
      row count as the wrapper reports it. */
  function ReportedResult(postgres: bool, res: Result<nat>): (r: Result<Option<nat>>)
    ensures r.Err? <==> res.Err?
    ensures r.Err? ==> r.error == res.error
    ensures r.Ok? ==> r.value == Reported(postgres, res.value)
  {
    match res
    case Ok(n) => Ok(Reported(postgres, n))
    case Err(e) => Err(e)
  }
}
