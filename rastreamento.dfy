/** The tracking poll (`rastreamentoController`): `shouldCheck` decides from an order's
    status, check count and timestamps whether it is due, and `verificarRastreios` queries
    the tracking service for every due order and writes what changed back into `pedidos`. */
module Rastreamento {
  import opened Util
  import opened Db
  import opened Wire
  import PedidoService = Pedidos
  import IntegrationConfig

  const Minute := 60 * 1000
  const Hour := 60 * Minute
  const Day := 24 * Hour

  /** Past this many checks an order is polled once a day. */
  const MaxChecks := 100

  const Entregue := "entregue"
  const Devolvido := "devolvido"
  const SaiuParaEntrega := "saiu para entrega"
  const Postado := "postado"

  // ---- The due check ----

  /** `(pedido.statusInterno || '').toLowerCase()` */
  function StatusOf(p: Pedido): string
  {
    Lower(OrEmpty(StrCol(p, StatusInterno)))
  }

  /** The instant `target` of the fixed check time `h:m` on the day that starts at `dayStart`
      (`setHours(h, m, 0, 0)`). */
  function Target(dayStart: int, h: int, m: int): int
  {
    dayStart + h * Hour + m * Minute
  }

  /** One pass of the loop over the fixed check times: due within five minutes after the
      target when not checked since it. */
  predicate DueAt(now: int, target: int, last: Option<int>)
  {
    now >= target && now - target < 5 * Minute && (last.None? || last.value < target)
  }

  /** `Math.floor((nowSP - statusChange) / DAY)`, or 0 without a status change. */
  function DaysSince(p: Pedido, now: int): int
  {
    match TimeCol(p, StatusChangeAt)
    case None => 0
    case Some(sc) => (now - sc) / Day
  }

  /** `shouldCheck(pedido, nowSP)`. `dayStart` is the start of `nowSP`'s local day, which
      `setHours` counts the fixed check times from. */
  function ShouldCheck(p: Pedido, now: int, dayStart: int): bool
  {
    var status := StatusOf(p);
    var last := TimeCol(p, LastCheckedAt);
    if status == Entregue || status == Devolvido then false
    else if IntOrZero(p, CheckCount) >= MaxChecks then last.None? || now - last.value >= 24 * Hour
    else if status == SaiuParaEntrega then last.None? || now - last.value >= 30 * Minute
    else if status == Postado then
      if DaysSince(p, now) == 0 then last.None?
      else last.None? || now - last.value >= 8 * Hour
    else DueAt(now, Target(dayStart, 10, 30), last) || DueAt(now, Target(dayStart, 14, 30), last)
  }

  // ---- The clock ----

  /** The instants a sweep reads: `sp` is `saoPauloNow` (São Paulo wall-clock time read as a
      local date), `dayStart` the start of its day and `now` the instant written by
      `toISOString()`. */
  datatype Clock = Clock(sp: int, dayStart: int, now: int)

  /** The day start really is the start of `sp`'s day. */
  predicate ClockOk(c: Clock)
  {
    c.dayStart <= c.sp < c.dayStart + Day
  }

  /** `saoPauloNow.getHours()` */
  function Hora(c: Clock): int
  {
    (c.sp - c.dayStart) / Hour
  }

  /** The poll does not run from 22:00 to 06:00. */
  predicate QuietHours(c: Clock)
  {
    Hora(c) >= 22 || Hora(c) < 6
  }

  // ---- The sweep as values ----

  /** What `rastrearCodigo` resolves with. `None` is an undefined property, `Some(None)` null. */
  datatype Tracking = Tracking(
    statusInterno: Option<string>,
    ultimaLocalizacao: Option<Option<string>>,
    ultimaAtualizacao: Option<Option<string>>,
    origemUltimaMovimentacao: Option<Option<string>>,
    destinoUltimaMovimentacao: Option<Option<string>>,
    descricaoUltimoEvento: Option<Option<string>>)

  /** The part of the state a sweep changes. */
  datatype TrackWorld = TrackWorld(pedidos: seq<Pedido>, logs: seq<LogEntry>, events: seq<Event>)

  /** Everything else a sweep depends on: the fault oracles, the stored integration settings,
      the tracking service (`rastrearCodigo(code, apiKey)`) and the clock. */
  datatype TrackEnv = TrackEnv(
    readFails: set<Table>, writeFails: set<Table>, settings: map<int, IntegrationSetting>,
    tracker: (string, Option<string>) -> Result<Tracking>, clock: Clock)

  function TrackWorldOf(db: Database, out: Outbox): TrackWorld
    reads db, out
  {
    TrackWorld(db.pedidos, db.logs, out.events)
  }

  function TrackEnvOf(db: Database, tracker: (string, Option<string>) -> Result<Tracking>, clock: Clock): TrackEnv
    reads db`integrationSettings
  {
    TrackEnv(db.readFails, db.writeFails, db.integrationSettings, tracker, clock)
  }

  /** The orders the sweep considers: with a tracking code and a status not exactly
      'entregue' or 'devolvido'. */
  predicate Trackable(p: Pedido)
  {
    Truthy(StrCol(p, CodigoRastreio)) && StrCol(p, StatusInterno) != Some(Entregue)
    && StrCol(p, StatusInterno) != Some(Devolvido)
  }

  function Candidates(ps: seq<Pedido>): seq<Pedido>
  {
    Filter(ps, Trackable)
  }

  /** `config && config.rastreio_api_key` for `pedido.cliente_id || 1`. */
  function ApiKey(settings: map<int, IntegrationSetting>, p: Pedido): Option<string>
  {
    var tenant := LogTenant(p.clienteId);
    if tenant in settings then settings[tenant].rastreioApiKey else None
  }

  /** `(dadosRastreio.statusInterno || '').toLowerCase()` */
  function NewStatus(t: Tracking): string
  {
    Lower(OrEmpty(t.statusInterno))
  }

  /** `novoStatus && novoStatus !== pedido.statusInterno`: the lower-cased new status is
      compared with the stored one as it is. */
  predicate Changed(p: Pedido, novo: string)
  {
    novo != "" && StrCol(p, StatusInterno) != Some(novo)
  }

  /** A property of the tracking result as an update value: undefined is dropped. */
  function FieldValue(o: Option<Option<string>>): Option<Value>
  {
    match o
    case None => None
    case Some(None) => Some(Null)
    case Some(Some(s)) => Some(Str(s))
  }

  /** The status fields `Object.assign`ed when the status changed. */
  function StatusCampos(t: Tracking, novo: string, now: int): seq<PedidoService.Campo>
  {
    [PedidoService.Campo(StatusInterno, Some(Str(novo))),
     PedidoService.Campo(UltimaLocalizacao, FieldValue(t.ultimaLocalizacao)),
     PedidoService.Campo(UltimaAtualizacao, FieldValue(t.ultimaAtualizacao)),
     PedidoService.Campo(OrigemUltimaMovimentacao, FieldValue(t.origemUltimaMovimentacao)),
     PedidoService.Campo(DestinoUltimaMovimentacao, FieldValue(t.destinoUltimaMovimentacao)),
     PedidoService.Campo(DescricaoUltimoEvento, FieldValue(t.descricaoUltimoEvento)),
     PedidoService.Campo(StatusChangeAt, Some(Time(now)))]
  }

  /** `updateData`: the check stamp and count, then the status fields when it changed. */
  function UpdateData(p: Pedido, t: Tracking, now: int): seq<PedidoService.Campo>
  {
    [PedidoService.Campo(LastCheckedAt, Some(Time(now))),
     PedidoService.Campo(CheckCount, Some(Int(IntOrZero(p, CheckCount) + 1)))]
    + (if Changed(p, NewStatus(t)) then StatusCampos(t, NewStatus(t), now) else [])
  }

  /** The steps of the inner `try` after the tracking service answered with `t`. */
  function Apply(env: TrackEnv, w: TrackWorld, p: Pedido, clienteId: Option<int>, broadcast: bool, t: Tracking): (TrackWorld, Outcome)
  {
    var (res, rows) := PedidoService.UpdateCampos(w.pedidos, p.id, UpdateData(p, t, env.clock.now),
                                                  clienteId, Pedidos in env.writeFails);
    if res.Err? then (w.(pedidos := rows), Fail(res.error))
    else Announce(env, w.(pedidos := rows), p, clienteId, broadcast, NewStatus(t))
  }

  /** After the update: the live update when the status changed, then the log row. */
  function Announce(env: TrackEnv, w: TrackWorld, p: Pedido, clienteId: Option<int>, broadcast: bool, novo: string): (TrackWorld, Outcome)
  {
    var pushed := if Changed(p, novo) && broadcast then [Push(clienteId, PedidoAtualizado(p.id))] else [];
    var w1 := w.(events := w.events + pushed);
    if Logs in env.writeFails then (w1, Fail(StorageError))
    else (w1.(logs := w1.logs + [LogEntry(Some(LogTenant(p.clienteId)), "rastreamento", Tracked(p.id, novo))]), Pass)
  }

  /** The body of the inner `try` for one due order; `Fail` is a throw with its message.
      Effects before the throw stay. */
  function Attempt(env: TrackEnv, w: TrackWorld, p: Pedido, clienteId: Option<int>, broadcast: bool): (TrackWorld, Outcome)
  {
    if IntegrationSettings in env.readFails then (w, Fail(StorageError))
    else
      var tracked := env.tracker(OrEmpty(StrCol(p, CodigoRastreio)), ApiKey(env.settings, p));
      if tracked.Err? then (w, Fail(tracked.error))
      else Apply(env, w, p, clienteId, broadcast, tracked.value)
  }

  /** One due order with its `catch`: a throw is logged under the order's own `cliente_id`;
      a failure of that log is a throw out of the loop (`Fail`). */
  function TrackOrder(env: TrackEnv, w: TrackWorld, p: Pedido, clienteId: Option<int>, broadcast: bool): (TrackWorld, Outcome)
  {
    var (w1, o) := Attempt(env, w, p, clienteId, broadcast);
    if o.Pass? then (w1, Pass)
    else if Logs in env.writeFails then (w1, o)
    else (w1.(logs := w1.logs + [LogEntry(p.clienteId, "falha_rastreamento", TrackingFailed(p.id, o.error))]), Pass)
  }

  /** The loop over the candidates in listing order: orders that are not due are skipped,
      and a throw out of the order's `catch` ends the sweep. */
  function TrackOrders(env: TrackEnv, w: TrackWorld, ps: seq<Pedido>, clienteId: Option<int>, broadcast: bool): TrackWorld
    decreases |ps|
  {
    if ps == [] then w
    else if !ShouldCheck(ps[0], env.clock.sp, env.clock.dayStart) then TrackOrders(env, w, ps[1..], clienteId, broadcast)
    else
      var (w1, o) := TrackOrder(env, w, ps[0], clienteId, broadcast);
      if o.Fail? then w1 else TrackOrders(env, w1, ps[1..], clienteId, broadcast)
  }

  /** `verificarRastreios(db, client, clienteId, broadcast)`: nothing in the quiet hours or
      when the orders cannot be read. */
  function Sweep(env: TrackEnv, w: TrackWorld, clienteId: Option<int>, broadcast: bool): TrackWorld
  {
    if QuietHours(env.clock) || Pedidos in env.readFails then w
    else TrackOrders(env, w, Candidates(PedidoService.AllPedidos(w.pedidos, clienteId)), clienteId, broadcast)
  }

  // ---- The methods ----

  /** The inner `try` block for one order. */
  method AttemptTracking(db: Database, out: Outbox, p: Pedido, clienteId: Option<int>, broadcast: bool,
                         tracker: (string, Option<string>) -> Result<Tracking>, clock: Clock) returns (r: Outcome)
    requires db.Valid()
    modifies db`pedidos, db`logs, out
    ensures db.Valid()
    ensures (TrackWorldOf(db, out), r) == Attempt(TrackEnvOf(db, tracker, clock), old(TrackWorldOf(db, out)), p, clienteId, broadcast)
  {
    var config := IntegrationConfig.GetConfig(db, LogTenant(p.clienteId));
    if config.Err? {
      return Fail(config.error);
    }
    var apiKey := if config.value.Some? then config.value.value.rastreioApiKey else None;
    assert apiKey == ApiKey(db.integrationSettings, p);
    var tracked := tracker(OrEmpty(StrCol(p, CodigoRastreio)), apiKey);
    if tracked.Err? {
      return Fail(tracked.error);
    }
    r := ApplyTracking(db, out, p, clienteId, broadcast, tracked.value, tracker, clock);
  }

  /** The update, live update and log once the tracking service answered. */
  method ApplyTracking(db: Database, out: Outbox, p: Pedido, clienteId: Option<int>, broadcast: bool, t: Tracking,
                       tracker: (string, Option<string>) -> Result<Tracking>, clock: Clock) returns (r: Outcome)
    requires db.Valid()
    modifies db`pedidos, db`logs, out
    ensures db.Valid()
    ensures (TrackWorldOf(db, out), r) == Apply(TrackEnvOf(db, tracker, clock), old(TrackWorldOf(db, out)), p, clienteId, broadcast, t)
  {
    var u := UpdateTracked(db, p, t, clienteId, clock.now);
    if u.Err? {
      return Fail(u.error);
    }
    r := AnnounceTracked(db, out, p, clienteId, broadcast, NewStatus(t), tracker, clock);
  }

  /** The live update and the log row of a checked order. */
  method AnnounceTracked(db: Database, out: Outbox, p: Pedido, clienteId: Option<int>, broadcast: bool, novo: string,
                         tracker: (string, Option<string>) -> Result<Tracking>, clock: Clock) returns (r: Outcome)
    modifies db`logs, out
    ensures (TrackWorldOf(db, out), r) == Announce(TrackEnvOf(db, tracker, clock), old(TrackWorldOf(db, out)), p, clienteId, broadcast, novo)
  {
    var pushed := if Changed(p, novo) && broadcast then [Push(clienteId, PedidoAtualizado(p.id))] else [];
    out.events := out.events + pushed;
    r := db.AddLog(Some(LogTenant(p.clienteId)), "rastreamento", Tracked(p.id, novo));
  }

  /** One due order: the `try` and its `catch`; `Fail` when the `catch` itself threw. */
  method CheckOrder(db: Database, out: Outbox, p: Pedido, clienteId: Option<int>, broadcast: bool,
                    tracker: (string, Option<string>) -> Result<Tracking>, clock: Clock) returns (r: Outcome)
    requires db.Valid()
    modifies db`pedidos, db`logs, out
    ensures db.Valid()
    ensures (TrackWorldOf(db, out), r) == TrackOrder(TrackEnvOf(db, tracker, clock), old(TrackWorldOf(db, out)), p, clienteId, broadcast)
  {
    r := AttemptTracking(db, out, p, clienteId, broadcast, tracker, clock);
    if r.Pass? {
      return;
    }
    var logged := db.AddLog(p.clienteId, "falha_rastreamento", TrackingFailed(p.id, r.error));
    if logged.Pass? {
      r := Pass;
    }
  }

  /** `updateCamposPedido(db, pedido.id, updateData, clienteId)` */
  method UpdateTracked(db: Database, p: Pedido, t: Tracking, clienteId: Option<int>, now: int) returns (u: Result<Option<nat>>)
    requires db.Valid()
    modifies db`pedidos
    ensures db.Valid()
    ensures var (res, rows) := PedidoService.UpdateCampos(old(db.pedidos), p.id, UpdateData(p, t, now), clienteId, Pedidos in db.writeFails);
      db.pedidos == rows && u == PedidoService.Resolution(db.postgres, UpdateData(p, t, now), res)
  {
    UpdateDataWellFormed(p, t, now);
    u := PedidoService.UpdateCamposPedido(db, p.id, UpdateData(p, t, now), clienteId);
  }

  /** The loop over the candidates. */
  method CheckOrders(db: Database, out: Outbox, ps: seq<Pedido>, clienteId: Option<int>, broadcast: bool,
                     tracker: (string, Option<string>) -> Result<Tracking>, clock: Clock)
    requires db.Valid()
    modifies db`pedidos, db`logs, out
    ensures db.Valid()
    ensures TrackWorldOf(db, out) == TrackOrders(TrackEnvOf(db, tracker, clock), old(TrackWorldOf(db, out)), ps, clienteId, broadcast)
  {
    ghost var env := TrackEnvOf(db, tracker, clock);
    ghost var target := TrackOrders(env, TrackWorldOf(db, out), ps, clienteId, broadcast);
    var i := 0;
    while i < |ps|
      invariant 0 <= i <= |ps|
      invariant db.Valid()
      invariant TrackOrders(env, TrackWorldOf(db, out), ps[i..], clienteId, broadcast) == target
    {
      var stop := CheckNext(db, out, ps, i, clienteId, broadcast, tracker, clock, env);
      if stop {
        return;
      }
      i := i + 1;
    }
    assert ps[i..] == [];
  }

  /** One turn of the loop: the `i`-th order is checked when it is due; `stop` when the
      check threw past its own handler. */
  method CheckNext(db: Database, out: Outbox, ps: seq<Pedido>, i: int, clienteId: Option<int>, broadcast: bool,
                   tracker: (string, Option<string>) -> Result<Tracking>, clock: Clock, ghost env: TrackEnv)
    returns (stop: bool)
    requires db.Valid() && 0 <= i < |ps| && env == TrackEnvOf(db, tracker, clock)
    modifies db`pedidos, db`logs, out
    ensures db.Valid()
    ensures stop ==> TrackWorldOf(db, out) == TrackOrders(env, old(TrackWorldOf(db, out)), ps[i..], clienteId, broadcast)
    ensures !stop ==> TrackOrders(env, old(TrackWorldOf(db, out)), ps[i..], clienteId, broadcast)
                      == TrackOrders(env, TrackWorldOf(db, out), ps[i + 1..], clienteId, broadcast)
  {
    ghost var w := TrackWorldOf(db, out);
    if ShouldCheck(ps[i], clock.sp, clock.dayStart) {
      var r := CheckOrder(db, out, ps[i], clienteId, broadcast, tracker, clock);
      TrackOrdersAdvance(env, w, ps, i, clienteId, broadcast, TrackWorldOf(db, out), r);
      stop := r.Fail?;
    } else {
      TrackOrdersSkip(env, w, ps, i, clienteId, broadcast);
      stop := false;
    }
  }

  /** `verificarRastreios(db, client, clienteId, broadcast)`; the WhatsApp client argument is
      not used by the sweep. */
  method VerificarRastreios(db: Database, out: Outbox, clienteId: Option<int>, broadcast: bool,
                            tracker: (string, Option<string>) -> Result<Tracking>, clock: Clock)
    requires db.Valid()
    modifies db`pedidos, db`logs, out
    ensures db.Valid()
    ensures TrackWorldOf(db, out) == Sweep(TrackEnvOf(db, tracker, clock), old(TrackWorldOf(db, out)), clienteId, broadcast)
  {
    var hora := Hora(clock);
    if hora >= 22 || hora < 6 {
      return;
    }
    var pedidos := PedidoService.GetAllPedidos(db, clienteId);
    if pedidos.Err? {
      return;
    }
    CheckOrders(db, out, Filter(pedidos.value, Trackable), clienteId, broadcast, tracker, clock);
  }

  // ---- Properties of the loop ----

  /** A due order is checked; a throw out of its `catch` ends the sweep, anything else goes on
      with the next order. */
  lemma TrackOrdersAdvance(env: TrackEnv, w: TrackWorld, ps: seq<Pedido>, i: int, clienteId: Option<int>, broadcast: bool,
                           w1: TrackWorld, r: Outcome)
    requires 0 <= i < |ps| && ShouldCheck(ps[i], env.clock.sp, env.clock.dayStart)
    requires (w1, r) == TrackOrder(env, w, ps[i], clienteId, broadcast)
    ensures r.Fail? ==> TrackOrders(env, w, ps[i..], clienteId, broadcast) == w1
    ensures r.Pass? ==> TrackOrders(env, w, ps[i..], clienteId, broadcast) == TrackOrders(env, w1, ps[i + 1..], clienteId, broadcast)
  {
    assert ps[i..][0] == ps[i] && ps[i..][1..] == ps[i + 1..];
  }

  /** An order that is not due is skipped without any effect. */
  lemma TrackOrdersSkip(env: TrackEnv, w: TrackWorld, ps: seq<Pedido>, i: int, clienteId: Option<int>, broadcast: bool)
    requires 0 <= i < |ps| && !ShouldCheck(ps[i], env.clock.sp, env.clock.dayStart)
    ensures TrackOrders(env, w, ps[i..], clienteId, broadcast) == TrackOrders(env, w, ps[i + 1..], clienteId, broadcast)
  {
    assert ps[i..][0] == ps[i] && ps[i..][1..] == ps[i + 1..];
  }

  /** A throw during one order's check is logged under the order's `cliente_id`, and the
      loop goes on with the next order from the state the throw left. */
  lemma FailureLoggedAndSkipped(env: TrackEnv, w: TrackWorld, ps: seq<Pedido>, i: int, clienteId: Option<int>, broadcast: bool)
    requires 0 <= i < |ps| && ShouldCheck(ps[i], env.clock.sp, env.clock.dayStart)
    requires Attempt(env, w, ps[i], clienteId, broadcast).1.Fail? && Logs !in env.writeFails
    ensures var (w1, o) := Attempt(env, w, ps[i], clienteId, broadcast);
      TrackOrders(env, w, ps[i..], clienteId, broadcast) ==
        TrackOrders(env, w1.(logs := w1.logs + [LogEntry(ps[i].clienteId, "falha_rastreamento", TrackingFailed(ps[i].id, o.error))]),
                    ps[i + 1..], clienteId, broadcast)
  {
    var (w1, r) := TrackOrder(env, w, ps[i], clienteId, broadcast);
    TrackOrdersAdvance(env, w, ps, i, clienteId, broadcast, w1, r);
  }

  /** When the failure log cannot be written either, the sweep ends with that order. */
  lemma FailedLogEndsSweep(env: TrackEnv, w: TrackWorld, ps: seq<Pedido>, i: int, clienteId: Option<int>, broadcast: bool)
    requires 0 <= i < |ps| && ShouldCheck(ps[i], env.clock.sp, env.clock.dayStart)
    requires Attempt(env, w, ps[i], clienteId, broadcast).1.Fail? && Logs in env.writeFails
    ensures TrackOrders(env, w, ps[i..], clienteId, broadcast) == Attempt(env, w, ps[i], clienteId, broadcast).0
  {
    var (w1, r) := TrackOrder(env, w, ps[i], clienteId, broadcast);
    TrackOrdersAdvance(env, w, ps, i, clienteId, broadcast, w1, r);
  }

  /** An UPDATE leaves every row it does not match as it was. */
  lemma UpdateKeepsUnmatched(ps: seq<Pedido>, id: int, campos: seq<PedidoService.Campo>, clienteId: Option<int>, fails: bool, i: int)
    requires 0 <= i < |ps| && !PedidoService.Matches(ps[i], id, clienteId)
    ensures var rows := PedidoService.UpdateCampos(ps, id, campos, clienteId, fails).1;
      |rows| == |ps| && rows[i] == ps[i]
  {
  }

  /** The steps after the tracking answer change no row but the order's. */
  lemma ApplyKeepsUnmatched(env: TrackEnv, w: TrackWorld, p: Pedido, clienteId: Option<int>, broadcast: bool, t: Tracking, i: int)
    requires 0 <= i < |w.pedidos| && !PedidoService.Matches(w.pedidos[i], p.id, clienteId)
    ensures var w1 := Apply(env, w, p, clienteId, broadcast, t).0;
      |w1.pedidos| == |w.pedidos| && w1.pedidos[i] == w.pedidos[i]
  {
    UpdateKeepsUnmatched(w.pedidos, p.id, UpdateData(p, t, env.clock.now), clienteId, Pedidos in env.writeFails, i);
  }

  /** Checking one order changes no row but that order's. */
  lemma TrackOrderKeepsUnmatched(env: TrackEnv, w: TrackWorld, p: Pedido, clienteId: Option<int>, broadcast: bool, i: int)
    requires 0 <= i < |w.pedidos| && !PedidoService.Matches(w.pedidos[i], p.id, clienteId)
    ensures var w1 := TrackOrder(env, w, p, clienteId, broadcast).0;
      |w1.pedidos| == |w.pedidos| && w1.pedidos[i] == w.pedidos[i]
  {
    assert TrackOrder(env, w, p, clienteId, broadcast).0.pedidos == Attempt(env, w, p, clienteId, broadcast).0.pedidos;
    if IntegrationSettings !in env.readFails {
      var tracked := env.tracker(OrEmpty(StrCol(p, CodigoRastreio)), ApiKey(env.settings, p));
      if tracked.Ok? {
        ApplyKeepsUnmatched(env, w, p, clienteId, broadcast, tracked.value, i);
      }
    }
  }

  /** The loop changes no row that none of its due orders matches. */
  lemma {:induction false} TrackOrdersKeepsUnmatched(env: TrackEnv, w: TrackWorld, ps: seq<Pedido>, clienteId: Option<int>,
                                                     broadcast: bool, i: int)
    requires 0 <= i < |w.pedidos|
    requires forall q :: q in ps && ShouldCheck(q, env.clock.sp, env.clock.dayStart) ==>
      !PedidoService.Matches(w.pedidos[i], q.id, clienteId)
    ensures var w1 := TrackOrders(env, w, ps, clienteId, broadcast);
      |w1.pedidos| == |w.pedidos| && w1.pedidos[i] == w.pedidos[i]
    decreases |ps|
  {
    if ps != [] {
      assert forall q :: q in ps[1..] ==> q in ps;
      if !ShouldCheck(ps[0], env.clock.sp, env.clock.dayStart) {
        TrackOrdersKeepsUnmatched(env, w, ps[1..], clienteId, broadcast, i);
      } else {
        var (w1, o) := TrackOrder(env, w, ps[0], clienteId, broadcast);
        TrackOrderKeepsUnmatched(env, w, ps[0], clienteId, broadcast, i);
        if o.Pass? {
          TrackOrdersKeepsUnmatched(env, w1, ps[1..], clienteId, broadcast, i);
        }
      }
    }
  }

  /** A sweep never touches an order that is not a candidate (delivered, returned or without
      a code), is not due, or belongs to another tenant. */
  lemma SweepLeavesOtherOrders(env: TrackEnv, w: TrackWorld, clienteId: Option<int>, broadcast: bool, i: int)
    requires IncreasingIds(w.pedidos) && 0 <= i < |w.pedidos|
    requires || !Trackable(w.pedidos[i])
             || !ShouldCheck(w.pedidos[i], env.clock.sp, env.clock.dayStart)
             || (clienteId.Some? && w.pedidos[i].clienteId != clienteId)
    ensures |Sweep(env, w, clienteId, broadcast).pedidos| == |w.pedidos|
    ensures Sweep(env, w, clienteId, broadcast).pedidos[i] == w.pedidos[i]
  {
    if !QuietHours(env.clock) && Pedidos !in env.readFails {
      var candidates := Candidates(PedidoService.AllPedidos(w.pedidos, clienteId));
      forall q | q in candidates && ShouldCheck(q, env.clock.sp, env.clock.dayStart)
        ensures !PedidoService.Matches(w.pedidos[i], q.id, clienteId)
      {
        assert q in w.pedidos && Trackable(q) && (clienteId.None? || q.clienteId == clienteId);
        var j :| 0 <= j < |w.pedidos| && w.pedidos[j] == q;
        if j != i {
          assert q.id != w.pedidos[i].id;
        }
      }
      TrackOrdersKeepsUnmatched(env, w, candidates, clienteId, broadcast, i);
    }
  }

  /** Nothing happens when the clock is in the quiet hours or the orders cannot be read. */
  lemma IdleSweep(env: TrackEnv, w: TrackWorld, clienteId: Option<int>, broadcast: bool)
    requires QuietHours(env.clock) || Pedidos in env.readFails
    ensures Sweep(env, w, clienteId, broadcast) == w
  {
  }

  /** Nor when no order of the tenant is a candidate. */
  lemma NothingToTrack(env: TrackEnv, w: TrackWorld, clienteId: Option<int>, broadcast: bool)
    requires forall p :: p in PedidoService.AllPedidos(w.pedidos, clienteId) ==> !Trackable(p)
    ensures Sweep(env, w, clienteId, broadcast) == w
  {
    FilterNone(PedidoService.AllPedidos(w.pedidos, clienteId), Trackable);
  }

  /** The live update is one `pedido_atualizado` for the order, sent only when its status
      changed and a callback was given. */
  lemma LiveUpdateOnlyOnChange(env: TrackEnv, w: TrackWorld, p: Pedido, clienteId: Option<int>, broadcast: bool)
    ensures var events := TrackOrder(env, w, p, clienteId, broadcast).0.events;
      events == w.events || events == w.events + [Push(clienteId, PedidoAtualizado(p.id))]
    ensures var tracked := env.tracker(OrEmpty(StrCol(p, CodigoRastreio)), ApiKey(env.settings, p));
      (!broadcast || IntegrationSettings in env.readFails || tracked.Err? || !Changed(p, NewStatus(tracked.value))) ==>
        TrackOrder(env, w, p, clienteId, broadcast).0.events == w.events
  {
    var attempt := Attempt(env, w, p, clienteId, broadcast);
    assert TrackOrder(env, w, p, clienteId, broadcast).0.events == attempt.0.events;
    if IntegrationSettings !in env.readFails {
      var tracked := env.tracker(OrEmpty(StrCol(p, CodigoRastreio)), ApiKey(env.settings, p));
      if tracked.Ok? {
        var (res, rows) := PedidoService.UpdateCampos(w.pedidos, p.id, UpdateData(p, tracked.value, env.clock.now),
                                                      clienteId, Pedidos in env.writeFails);
        assert attempt == Apply(env, w, p, clienteId, broadcast, tracked.value);
        if res.Ok? {
          var announced := Announce(env, w.(pedidos := rows), p, clienteId, broadcast, NewStatus(tracked.value));
          assert attempt == announced;
          assert announced.0.events == w.events + (if Changed(p, NewStatus(tracked.value)) && broadcast
                                                   then [Push(clienteId, PedidoAtualizado(p.id))] else []);
        }
      }
    }
  }

  // ---- Properties of the due check ----

  /** A status that is polled only at the fixed check times. */
  predicate Scheduled(status: string)
  {
    status != Entregue && status != Devolvido && status != SaiuParaEntrega && status != Postado
  }

  /** A delivered or returned order is never due, whatever its case and its counters. */
  lemma FinishedNeverDue(p: Pedido, now: int, dayStart: int)
    requires StatusOf(p) == Entregue || StatusOf(p) == Devolvido
    ensures !ShouldCheck(p, now, dayStart)
  {
  }

  /** Past `MaxChecks` checks an order is due when never checked or after 24 hours. */
  lemma SaturatedDaily(p: Pedido, now: int, dayStart: int)
    requires StatusOf(p) != Entregue && StatusOf(p) != Devolvido
    requires IntOrZero(p, CheckCount) >= MaxChecks
    ensures ShouldCheck(p, now, dayStart) <==>
      TimeCol(p, LastCheckedAt).None? || now - TimeCol(p, LastCheckedAt).value >= 24 * Hour
  {
  }

  /** An order out for delivery is due when never checked or after 30 minutes. */
  lemma OutForDeliveryHalfHourly(p: Pedido, now: int, dayStart: int)
    requires StatusOf(p) == SaiuParaEntrega && IntOrZero(p, CheckCount) < MaxChecks
    ensures ShouldCheck(p, now, dayStart) <==>
      TimeCol(p, LastCheckedAt).None? || now - TimeCol(p, LastCheckedAt).value >= 30 * Minute
  {
  }

  /** A posted order within the first 24 hours after its status change (or without one) is
      due only when never checked. */
  lemma PostedFirstPeriod(p: Pedido, now: int, dayStart: int)
    requires StatusOf(p) == Postado && IntOrZero(p, CheckCount) < MaxChecks
    requires TimeCol(p, StatusChangeAt).None? || 0 <= now - TimeCol(p, StatusChangeAt).value < Day
    ensures ShouldCheck(p, now, dayStart) <==> TimeCol(p, LastCheckedAt).None?
  {
  }

  /** From 24 hours after its status change, a posted order is due when never checked or
      after 8 hours. */
  lemma PostedLaterPeriods(p: Pedido, now: int, dayStart: int)
    requires StatusOf(p) == Postado && IntOrZero(p, CheckCount) < MaxChecks
    requires TimeCol(p, StatusChangeAt).Some? && now - TimeCol(p, StatusChangeAt).value >= Day
    ensures ShouldCheck(p, now, dayStart) <==>
      TimeCol(p, LastCheckedAt).None? || now - TimeCol(p, LastCheckedAt).value >= 8 * Hour
  {
    assert DaysSince(p, now) >= 1;
  }

  /** The day count is of elapsed 24-hour periods, not of calendar days: an order posted at
      23:00 and checked then is still in its first period at 20:00 the next day, so it is not
      due although a calendar day has passed. */
  lemma PostedCountsPeriodsNotDays(p: Pedido, dayStart: int)
    requires StatusOf(p) == Postado && IntOrZero(p, CheckCount) < MaxChecks
    requires TimeCol(p, StatusChangeAt) == Some(dayStart - Hour)
    requires TimeCol(p, LastCheckedAt) == Some(dayStart - Hour)
    ensures DaysSince(p, dayStart + 20 * Hour) == 0
    ensures !ShouldCheck(p, dayStart + 20 * Hour, dayStart)
  {
  }

  /** Any other status is due only in the five minutes from 10:30 or from 14:30, and, for an
      order never checked, exactly then. */
  lemma ScheduledWindows(p: Pedido, now: int, dayStart: int)
    requires Scheduled(StatusOf(p)) && IntOrZero(p, CheckCount) < MaxChecks
    ensures ShouldCheck(p, now, dayStart) ==>
      || Target(0, 10, 30) <= now - dayStart < Target(0, 10, 35)
      || Target(0, 14, 30) <= now - dayStart < Target(0, 14, 35)
    ensures TimeCol(p, LastCheckedAt).None? ==>
      (ShouldCheck(p, now, dayStart) <==>
        || Target(0, 10, 30) <= now - dayStart < Target(0, 10, 35)
        || Target(0, 14, 30) <= now - dayStart < Target(0, 14, 35))
  {
  }

  /** Once checked at a fixed check time, an order with such a status is not due again in the
      same window: the next check of the day comes at the next check time, almost four hours
      later. */
  lemma ScheduledChecksHoursApart(p: Pedido, q: Pedido, now1: int, now2: int, dayStart: int)
    requires Scheduled(StatusOf(p)) && IntOrZero(p, CheckCount) < MaxChecks
    requires StatusOf(q) == StatusOf(p) && IntOrZero(q, CheckCount) < MaxChecks
    requires ShouldCheck(p, now1, dayStart) && TimeCol(q, LastCheckedAt) == Some(now1)
    requires now1 <= now2 && ShouldCheck(q, now2, dayStart)
    ensures now2 - now1 > 3 * Hour + 55 * Minute
  {
  }

  /** Outside the quiet hours the clock reads between 06:00 and 22:00. */
  lemma ActiveHours(c: Clock)
    requires ClockOk(c)
    ensures !QuietHours(c) <==> Target(c.dayStart, 6, 0) <= c.sp < Target(c.dayStart, 22, 0)
  {
  }

  // ---- Properties of the update ----

  /** The update names distinct columns, each with a value of its kind. */
  lemma UpdateDataWellFormed(p: Pedido, t: Tracking, now: int)
    ensures PedidoService.DistinctKeys(UpdateData(p, t, now))
    ensures forall i :: 0 <= i < |UpdateData(p, t, now)| && UpdateData(p, t, now)[i].value.Some? ==>
      Fits(UpdateData(p, t, now)[i].key, UpdateData(p, t, now)[i].value.value)
  {
  }

  /** The five location fields copied from the tracking result when the status changed. */
  const LocationColumns: seq<Column> :=
    [UltimaLocalizacao, UltimaAtualizacao, OrigemUltimaMovimentacao, DestinoUltimaMovimentacao, DescricaoUltimoEvento]

  /** A location field's tracked value: the result's, undefined keeping the stored one. */
  function Located(t: Tracking, c: Column, stored: Value): Value
  {
    var f := match c
      case UltimaLocalizacao => FieldValue(t.ultimaLocalizacao)
      case UltimaAtualizacao => FieldValue(t.ultimaAtualizacao)
      case OrigemUltimaMovimentacao => FieldValue(t.origemUltimaMovimentacao)
      case DestinoUltimaMovimentacao => FieldValue(t.destinoUltimaMovimentacao)
      case DescricaoUltimoEvento => FieldValue(t.descricaoUltimoEvento)
      case _ => None;
    if f.Some? then f.value else stored
  }

  /** A checked order's row after a successful check: the count goes up by one and the check
      is stamped; the status, its change stamp and the location fields are written only when
      the lower-cased new status is non-empty and differs from the stored one; no other
      column changes. */
  ghost predicate TrackedRow(row: Pedido, before: Pedido, p: Pedido, t: Tracking, now: int)
  {
    && Get(row, CheckCount) == Int(IntOrZero(p, CheckCount) + 1)
    && Get(row, LastCheckedAt) == Time(now)
    && (Changed(p, NewStatus(t)) ==>
          && Get(row, StatusInterno) == Str(NewStatus(t))
          && Get(row, StatusChangeAt) == Time(now)
          && forall c :: c in LocationColumns ==> Get(row, c) == Located(t, c, Get(before, c)))
    && (!Changed(p, NewStatus(t)) ==>
          && Get(row, StatusInterno) == Get(before, StatusInterno)
          && Get(row, StatusChangeAt) == Get(before, StatusChangeAt)
          && forall c :: c in LocationColumns ==> Get(row, c) == Get(before, c))
    && forall c :: (c != CheckCount && c != LastCheckedAt && c != StatusInterno && c != StatusChangeAt
                    && c !in LocationColumns) ==> Get(row, c) == Get(before, c)
  }

  /** A field's value as the UPDATE writes it: a defined value, or the stored one. */
  function Written(stored: Value, v: Option<Value>): Value
  {
    if v.Some? then v.value else stored
  }

  /** No field of the update names column `c`. */
  predicate NotNamed(campos: seq<PedidoService.Campo>, c: Column)
  {
    forall j :: 0 <= j < |campos| ==> campos[j].key != c
  }

  /** `row` is `before` with the update `campos` applied. */
  ghost predicate Applied(row: Pedido, before: Pedido, campos: seq<PedidoService.Campo>)
  {
    && (forall j :: 0 <= j < |campos| ==> Get(row, campos[j].key) == Written(Get(before, campos[j].key), campos[j].value))
    && (forall c :: NotNamed(campos, c) ==> Get(row, c) == Get(before, c))
  }

  /** The column named by one field of an update gets its defined value, or keeps its own. */
  lemma WrittenAt(ps: seq<Pedido>, id: int, campos: seq<PedidoService.Campo>, clienteId: Option<int>, fails: bool, i: int, j: int)
    requires PedidoService.DistinctKeys(campos)
    requires 0 <= i < |ps| && PedidoService.Matches(ps[i], id, clienteId)
    requires PedidoService.UpdateCampos(ps, id, campos, clienteId, fails).0.Ok?
    requires 0 <= j < |campos|
    ensures var rows := PedidoService.UpdateCampos(ps, id, campos, clienteId, fails).1;
      |rows| == |ps| && Get(rows[i], campos[j].key) == Written(Get(ps[i], campos[j].key), campos[j].value)
  {
    PedidoService.UpdateOnlyNamedFields(ps, id, campos, clienteId, fails, i, campos[j].key);
    forall k | 0 <= k < |campos| && k != j
      ensures campos[k].key != campos[j].key
    {
    }
  }

  /** A successful update applies its fields to the matched row. */
  lemma UpdateApplies(ps: seq<Pedido>, id: int, campos: seq<PedidoService.Campo>, clienteId: Option<int>, fails: bool, i: int)
    requires PedidoService.DistinctKeys(campos)
    requires 0 <= i < |ps| && PedidoService.Matches(ps[i], id, clienteId)
    requires PedidoService.UpdateCampos(ps, id, campos, clienteId, fails).0.Ok?
    ensures var rows := PedidoService.UpdateCampos(ps, id, campos, clienteId, fails).1;
      |rows| == |ps| && Applied(rows[i], ps[i], campos)
  {
    var rows := PedidoService.UpdateCampos(ps, id, campos, clienteId, fails).1;
    forall j | 0 <= j < |campos|
      ensures Get(rows[i], campos[j].key) == Written(Get(ps[i], campos[j].key), campos[j].value)
    {
      WrittenAt(ps, id, campos, clienteId, fails, i, j);
    }
    forall c | NotNamed(campos, c)
      ensures Get(rows[i], c) == Get(ps[i], c)
    {
      PedidoService.UpdateOnlyNamedFields(ps, id, campos, clienteId, fails, i, c);
    }
  }

  /** The check count and stamp of a checked order. */
  lemma StampApplied(row: Pedido, before: Pedido, p: Pedido, t: Tracking, now: int)
    requires Applied(row, before, UpdateData(p, t, now))
    ensures Get(row, CheckCount) == Int(IntOrZero(p, CheckCount) + 1)
    ensures Get(row, LastCheckedAt) == Time(now)
  {
    var campos := UpdateData(p, t, now);
    assert campos[0].key == LastCheckedAt && campos[1].key == CheckCount;
  }

  /** The status and its change stamp of a checked order whose status changed. */
  lemma StatusApplied(row: Pedido, before: Pedido, p: Pedido, t: Tracking, now: int)
    requires Applied(row, before, UpdateData(p, t, now))
    requires Changed(p, NewStatus(t))
    ensures Get(row, StatusInterno) == Str(NewStatus(t))
    ensures Get(row, StatusChangeAt) == Time(now)
  {
    var campos := UpdateData(p, t, now);
    assert campos[2] == PedidoService.Campo(StatusInterno, Some(Str(NewStatus(t))));
    assert campos[8] == PedidoService.Campo(StatusChangeAt, Some(Time(now)));
  }

  /** The location fields of a checked order whose status changed. */
  lemma LocationsApplied(row: Pedido, before: Pedido, p: Pedido, t: Tracking, now: int)
    requires Applied(row, before, UpdateData(p, t, now))
    requires Changed(p, NewStatus(t))
    ensures forall c :: c in LocationColumns ==> Get(row, c) == Located(t, c, Get(before, c))
  {
    var campos := UpdateData(p, t, now);
    assert campos[3..8] == [
      PedidoService.Campo(UltimaLocalizacao, FieldValue(t.ultimaLocalizacao)),
      PedidoService.Campo(UltimaAtualizacao, FieldValue(t.ultimaAtualizacao)),
      PedidoService.Campo(OrigemUltimaMovimentacao, FieldValue(t.origemUltimaMovimentacao)),
      PedidoService.Campo(DestinoUltimaMovimentacao, FieldValue(t.destinoUltimaMovimentacao)),
      PedidoService.Campo(DescricaoUltimoEvento, FieldValue(t.descricaoUltimoEvento))];
    forall k | 0 <= k < 5
      ensures Get(row, LocationColumns[k]) == Located(t, LocationColumns[k], Get(before, LocationColumns[k]))
    {
      assert campos[3 + k] == campos[3..8][k];
    }
  }

  /** The status fields of a checked order whose status did not change. */
  lemma StatusKept(row: Pedido, before: Pedido, p: Pedido, t: Tracking, now: int)
    requires Applied(row, before, UpdateData(p, t, now))
    requires !Changed(p, NewStatus(t))
    ensures Get(row, StatusInterno) == Get(before, StatusInterno)
    ensures Get(row, StatusChangeAt) == Get(before, StatusChangeAt)
    ensures forall c :: c in LocationColumns ==> Get(row, c) == Get(before, c)
  {
    var campos := UpdateData(p, t, now);
    assert |campos| == 2 && campos[0].key == LastCheckedAt && campos[1].key == CheckCount;
    forall c | c == StatusInterno || c == StatusChangeAt || c in LocationColumns
      ensures NotNamed(campos, c)
    {
    }
  }

  /** The columns a check never writes. */
  lemma OthersKept(row: Pedido, before: Pedido, p: Pedido, t: Tracking, now: int)
    requires Applied(row, before, UpdateData(p, t, now))
    ensures forall c :: (c != CheckCount && c != LastCheckedAt && c != StatusInterno && c != StatusChangeAt
                         && c !in LocationColumns) ==> Get(row, c) == Get(before, c)
  {
    var campos := UpdateData(p, t, now);
    forall c | c != CheckCount && c != LastCheckedAt && c != StatusInterno && c != StatusChangeAt && c !in LocationColumns
      ensures NotNamed(campos, c)
    {
    }
  }

  /** After a successful check the order's row is the `TrackedRow` of its old row. */
  lemma CheckedOrderFields(env: TrackEnv, w: TrackWorld, p: Pedido, clienteId: Option<int>, broadcast: bool,
                           t: Tracking, i: int)
    requires IntegrationSettings !in env.readFails
    requires env.tracker(OrEmpty(StrCol(p, CodigoRastreio)), ApiKey(env.settings, p)) == Ok(t)
    requires Attempt(env, w, p, clienteId, broadcast).1.Pass?
    requires 0 <= i < |w.pedidos| && PedidoService.Matches(w.pedidos[i], p.id, clienteId)
    ensures |Attempt(env, w, p, clienteId, broadcast).0.pedidos| == |w.pedidos|
    ensures TrackedRow(Attempt(env, w, p, clienteId, broadcast).0.pedidos[i], w.pedidos[i], p, t, env.clock.now)
  {
    var fails := Pedidos in env.writeFails;
    var campos := UpdateData(p, t, env.clock.now);
    var up := PedidoService.UpdateCampos(w.pedidos, p.id, campos, clienteId, fails);
    assert Attempt(env, w, p, clienteId, broadcast).0.pedidos == up.1 && up.0.Ok?;
    UpdateDataWellFormed(p, t, env.clock.now);
    UpdateApplies(w.pedidos, p.id, campos, clienteId, fails, i);
    var row := up.1[i];
    StampApplied(row, w.pedidos[i], p, t, env.clock.now);
    if Changed(p, NewStatus(t)) {
      StatusApplied(row, w.pedidos[i], p, t, env.clock.now);
      LocationsApplied(row, w.pedidos[i], p, t, env.clock.now);
    } else {
      StatusKept(row, w.pedidos[i], p, t, env.clock.now);
    }
    OthersKept(row, w.pedidos[i], p, t, env.clock.now);
  }
}
