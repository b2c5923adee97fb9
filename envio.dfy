/** The status-automation dispatcher (`envioController`): each sweep picks at most one
    trigger per order, sends its rendered text, records it in the history and writes the
    trigger's marker into `mensagemUltimoStatus`, so that the next sweep does not repeat it. */
module Envio {
  import opened Util
  import opened Db
  import opened Wire
  import opened Template
  import opened DefaultMessages
  import opened Automations
  import PedidoService = Pedidos
  import WhatsApp

  /** What the dispatcher reads of a WhatsApp session. */
  datatype Session = Session(status: string, client: Option<nat>)

  const Connected := "CONNECTED"
  const EnvioRastreio := "envio_rastreio"

  /** The markers that stop rule 2 from firing again, as listed in the dispatcher. */
  const SentKeys: seq<string> :=
    ["envio_rastreio", "pedido_a_caminho", "pedido_atrasado", "pedido_devolvido", "pedido_a_espera", "pedido_cancelado"]

  /** The part of the state a sweep changes: four tables, the history id counter and the trace. */
  datatype World = World(
    pedidos: seq<Pedido>, historico: seq<HistoricoEntry>, nextHistoricoId: int,
    logs: seq<LogEntry>, events: seq<Event>)

  /** Everything a sweep depends on besides the state: the fault oracles, the date formats
      and the instant the messages are stamped with. */
  datatype Env = Env(
    readFails: set<Table>, writeFails: set<Table>, refuses: (nat, Request) -> bool,
    f: Formats, now: int)

  function WorldOf(db: Database, out: Outbox): World
    reads db, out
  {
    World(db.pedidos, db.historico, db.nextHistoricoId, db.logs, out.events)
  }

  function EnvOf(db: Database, out: Outbox, f: Formats, now: int): Env
  {
    Env(db.readFails, db.writeFails, out.refuses, f, now)
  }

  // ---- Choosing the trigger ----

  /** A trigger: the key its configuration is looked up by and the marker it writes. */
  datatype Trigger = Trigger(key: string, marker: string)

  /** The three ordered rules; only the first whose condition holds is considered. */
  function Classify(p: Pedido): (t: Option<Trigger>)
    ensures t.Some? ==> t.value.marker != ""
  {
    var code := StrCol(p, CodigoRastreio);
    var marker := StrCol(p, MensagemUltimoStatus);
    var status := StrCol(p, StatusInterno);
    if !Truthy(code) && !Truthy(marker) then Some(Trigger(BoasVindas, BoasVindas))
    else if Truthy(code) && !(marker.Some? && marker.value in SentKeys) then Some(Trigger(EnvioRastreio, EnvioRastreio))
    else if Truthy(status) && Some(Lower(status.value)) != marker then
      Some(Trigger(UnderscoreWhitespace(Lower(status.value)), Lower(status.value)))
    else None
  }

  /** The outcome of the rules for one order. */
  datatype Decision = Quiet | Fire(marker: string, text: string)

  /** The message for an order: the first matching rule's trigger, when it is configured and
      active, with its text (or the default's) rendered, and only when that render is non-empty. */
  function Decide(p: Pedido, autos: map<string, Config>, f: Formats): (d: Decision)
    ensures d.Fire? ==> Classify(p).Some? && d.marker == Classify(p).value.marker && d.text != ""
  {
    match Classify(p)
    case None => Quiet
    case Some(t) =>
      if t.key !in autos || !autos[t.key].ativo then Quiet
      else
        var base := if Truthy(autos[t.key].mensagem) then autos[t.key].mensagem else Default(t.key);
        var msg := Personalizar(base, p, f);
        if Truthy(msg) then Fire(t.marker, msg.value) else Quiet
  }

  // ---- The effects of one dispatch ----

  /** `enviarMensagem`, then `addMensagemHistorico` of the sent text. */
  function SendAndRecord(env: Env, w: World, client: nat, p: Pedido, text: string, tipo: string): (World, Outcome)
  {
    var a := WhatsApp.Deliver(env.refuses, Some(client), Some(WhatsApp.TextRequest(StrCol(p, Telefone), text)));
    if a.outcome.Fail? then (w, a.outcome)
    else
      var w1 := w.(events := w.events + a.emitted);
      if Historico in env.writeFails then (w1, Fail(StorageError))
      else
        var entry := HistoricoEntry(w1.nextHistoricoId, p.id, p.clienteId, text, tipo, "bot", None, "texto");
        (w1.(historico := w1.historico + [entry], nextHistoricoId := w1.nextHistoricoId + 1,
             pedidos := PedidoService.UpdateStatement(w1.pedidos, p.id, p.clienteId,
               PedidoService.LastMessage(Some(text), env.now), Pedidos in env.writeFails).1),
         Pass)
  }

  /** The marker update `{ mensagemUltimoStatus: marker }`. */
  function MarkerCampos(marker: string): seq<PedidoService.Campo>
  {
    [PedidoService.Campo(MensagemUltimoStatus, Some(Str(marker)))]
  }

  /** The marker write, the log row and the live update, in that order. */
  function Mark(env: Env, w: World, p: Pedido, marker: string, tenant: Option<int>, broadcast: bool): (World, Outcome)
  {
    var (res, rows) := PedidoService.UpdateCampos(w.pedidos, p.id, MarkerCampos(marker), tenant, Pedidos in env.writeFails);
    if res.Err? then (w.(pedidos := rows), Fail(res.error))
    else
      var w1 := w.(pedidos := rows);
      if Logs in env.writeFails then (w1, Fail(StorageError))
      else
        var w2 := w1.(logs := w1.logs + [LogEntry(Some(LogTenant(p.clienteId)), "mensagem_automatica", Dispatched(p.id, marker))]);
        (if broadcast then w2.(events := w2.events + [Push(tenant, NovaMensagem(p.id))]) else w2, Pass)
  }

  /** One order of a sweep; a failure (`Fail`) is a throw that ends the sweep. */
  function ProcessOrder(env: Env, w: World, userId: int, client: Option<nat>, autos: map<string, Config>,
                        p: Pedido, broadcast: bool): (World, Outcome)
  {
    match Decide(p, autos, env.f)
    case Quiet => (w, Pass)
    case Fire(marker, text) =>
      if client.None? then (w, Pass)
      else
        var (w1, sent) := SendAndRecord(env, w, client.value, p, text, marker);
        if sent.Fail? then (w1, sent)
        else Mark(env, w1, p, marker, Some(userId), broadcast)
  }

  /** The orders of one tenant, in listing order, until one throws. */
  function ProcessOrders(env: Env, w: World, userId: int, client: Option<nat>, autos: map<string, Config>,
                         ps: seq<Pedido>, broadcast: bool): (World, Outcome)
    decreases |ps|
  {
    if ps == [] then (w, Pass)
    else
      var (w1, o) := ProcessOrder(env, w, userId, client, autos, ps[0], broadcast);
      if o.Fail? then (w1, o)
      else ProcessOrders(env, w1, userId, client, autos, ps[1..], broadcast)
  }

  /** The sweep over the sessions, in the map's order: a session that is not connected is
      skipped; a failed read or a throw ends the whole sweep (the error is only logged). */
  function ProcessSessions(env: Env, w: World, rows: map<(string, int), AutomationRow>,
                           sessions: seq<(int, Session)>, broadcast: bool): World
    decreases |sessions|
  {
    if sessions == [] then w
    else
      var (userId, s) := sessions[0];
      if s.status != Connected then ProcessSessions(env, w, rows, sessions[1..], broadcast)
      else if Automacoes in env.readFails || Pedidos in env.readFails then w
      else
        var (w1, o) := ProcessOrders(env, w, userId, s.client, Merged(Templates, rows, userId),
                                     PedidoService.AllPedidos(w.pedidos, Some(userId)), broadcast);
        if o.Fail? then w1 else ProcessSessions(env, w1, rows, sessions[1..], broadcast)
  }

  // ---- The methods ----

  /** The body of the order loop of `enviarMensagensComRegras`; `true` when it threw. */
  method DispatchOrder(db: Database, out: Outbox, userId: int, client: Option<nat>, autos: map<string, Config>,
                       p: Pedido, broadcast: bool, f: Formats, now: int) returns (threw: bool)
    requires db.Valid()
    modifies db`pedidos, db`historico, db`nextHistoricoId, db`logs, out
    ensures db.Valid()
    ensures WorldOf(db, out) == ProcessOrder(EnvOf(db, out, f, now), old(WorldOf(db, out)), userId, client, autos, p, broadcast).0
    ensures threw == ProcessOrder(EnvOf(db, out, f, now), old(WorldOf(db, out)), userId, client, autos, p, broadcast).1.Fail?
  {
    var d := Decide(p, autos, f);
    if d.Quiet? || client.None? {
      return false;
    }
    var sent := SendRecorded(db, out, client.value, p, d.text, d.marker, f, now);
    if sent.Fail? {
      return true;
    }
    var marked := MarkDispatched(db, out, p, d.marker, Some(userId), broadcast, f, now);
    return marked.Fail?;
  }

  /** `enviarMensagem` and `addMensagemHistorico` of one message. */
  method SendRecorded(db: Database, out: Outbox, client: nat, p: Pedido, text: string, tipo: string,
                      f: Formats, now: int) returns (r: Outcome)
    requires db.Valid()
    modifies db`pedidos, db`historico, db`nextHistoricoId, out
    ensures db.Valid()
    ensures (WorldOf(db, out), r) == SendAndRecord(EnvOf(db, out, f, now), old(WorldOf(db, out)), client, p, text, tipo)
  {
    r := WhatsApp.EnviarMensagem(out, Some(client), StrCol(p, Telefone), text);
    if r.Fail? {
      assert WorldOf(db, out) == old(WorldOf(db, out));
      return;
    }
    var h := PedidoService.AddMensagemHistorico(db, p.id, Some(text), tipo, "bot", p.clienteId, None, "texto", now);
    return if h.Err? then Fail(h.error) else Pass;
  }

  /** The marker write, log and live update after a message went out. */
  method MarkDispatched(db: Database, out: Outbox, p: Pedido, marker: string, tenant: Option<int>,
                        broadcast: bool, f: Formats, now: int) returns (r: Outcome)
    requires db.Valid()
    modifies db`pedidos, db`logs, out
    ensures db.Valid()
    ensures db.historico == old(db.historico) && db.nextHistoricoId == old(db.nextHistoricoId)
    ensures (WorldOf(db, out), r) == Mark(EnvOf(db, out, f, now), old(WorldOf(db, out)), p, marker, tenant, broadcast)
  {
    var u := PedidoService.UpdateCamposPedido(db, p.id, MarkerCampos(marker), tenant);
    if u.Err? {
      return Fail(u.error);
    }
    r := db.AddLog(Some(LogTenant(p.clienteId)), "mensagem_automatica", Dispatched(p.id, marker));
    if r.Fail? {
      return;
    }
    if broadcast {
      out.events := out.events + [Push(tenant, NovaMensagem(p.id))];
    }
  }

  /** The effect of `enviarMensagemBoasVindas` once the automations are read: with the welcome
      trigger active, the text goes out and into the history only when there is a client, and
      the marker, log and live update follow in every case. */
  function Welcome(env: Env, w: World, config: Config, p: Pedido, client: Option<nat>, broadcast: bool): (World, Outcome)
  {
    if !config.ativo then (w, Pass)
    else
      var base := if Truthy(config.mensagem) then config.mensagem else Default(BoasVindas);
      var text := OrEmpty(Personalizar(base, p, env.f));
      var (w1, sent) := if client.Some? then SendAndRecord(env, w, client.value, p, text, BoasVindas) else (w, Pass);
      if sent.Fail? then (w1, sent)
      else Mark(env, w1, p, BoasVindas, p.clienteId, broadcast)
  }

  /** `enviarMensagemBoasVindas(db, pedido, broadcast, client)`, which rejects on any failure. */
  method EnviarMensagemBoasVindas(db: Database, out: Outbox, p: Pedido, broadcast: bool, client: Option<nat>,
                                  f: Formats, now: int) returns (r: Outcome)
    requires db.Valid()
    modifies db`pedidos, db`historico, db`nextHistoricoId, db`logs, out
    ensures db.Valid()
    ensures Automacoes in db.readFails ==> r == Fail(StorageError) && WorldOf(db, out) == old(WorldOf(db, out))
    ensures Automacoes !in db.readFails ==>
      exists autos :: IsMerge(Templates, autos, old(db.automacoes), p.clienteId) && BoasVindas in autos
        && (WorldOf(db, out), r) == Welcome(EnvOf(db, out, f, now), old(WorldOf(db, out)), autos[BoasVindas], p, client, broadcast)
    ensures Automacoes !in db.readFails && p.clienteId.Some? ==>
      (WorldOf(db, out), r) == Welcome(EnvOf(db, out, f, now), old(WorldOf(db, out)),
                                       Merged(Templates, old(db.automacoes), p.clienteId.value)[BoasVindas], p, client, broadcast)
  {
    var autos := GetAutomations(db, p.clienteId);
    if autos.Err? {
      return Fail(autos.error);
    }
    assert BoasVindas in Keys;
    r := Welcomed(db, out, autos.value[BoasVindas], p, broadcast, client, f, now);
  }

  /** The part of `enviarMensagemBoasVindas` after the automations were read. */
  method Welcomed(db: Database, out: Outbox, config: Config, p: Pedido, broadcast: bool, client: Option<nat>,
                  f: Formats, now: int) returns (r: Outcome)
    requires db.Valid()
    modifies db`pedidos, db`historico, db`nextHistoricoId, db`logs, out
    ensures db.Valid()
    ensures (WorldOf(db, out), r) == Welcome(EnvOf(db, out, f, now), old(WorldOf(db, out)), config, p, client, broadcast)
  {
    ghost var env := EnvOf(db, out, f, now);
    ghost var w0 := WorldOf(db, out);
    if !config.ativo {
      return Pass;
    }
    var base := if Truthy(config.mensagem) then config.mensagem else Default(BoasVindas);
    var text := OrEmpty(Personalizar(base, p, f));
    ghost var sent := if client.Some? then SendAndRecord(env, w0, client.value, p, text, BoasVindas) else (w0, Pass);
    assert Welcome(env, w0, config, p, client, broadcast)
        == if sent.1.Fail? then sent else Mark(env, sent.0, p, BoasVindas, p.clienteId, broadcast);
    if client.Some? {
      r := SendRecorded(db, out, client.value, p, text, BoasVindas, f, now);
      if r.Fail? {
        return;
      }
    }
    assert WorldOf(db, out) == sent.0;
    r := MarkDispatched(db, out, p, BoasVindas, p.clienteId, broadcast, f, now);
  }

  /** The loop over one tenant's orders; `true` when one threw. */
  method DispatchTenant(db: Database, out: Outbox, userId: int, client: Option<nat>, autos: map<string, Config>,
                        ps: seq<Pedido>, broadcast: bool, f: Formats, now: int) returns (threw: bool)
    requires db.Valid()
    modifies db`pedidos, db`historico, db`nextHistoricoId, db`logs, out
    ensures db.Valid()
    ensures WorldOf(db, out) == ProcessOrders(EnvOf(db, out, f, now), old(WorldOf(db, out)), userId, client, autos, ps, broadcast).0
    ensures threw == ProcessOrders(EnvOf(db, out, f, now), old(WorldOf(db, out)), userId, client, autos, ps, broadcast).1.Fail?
  {
    ghost var env := EnvOf(db, out, f, now);
    ghost var after := ProcessOrders(env, WorldOf(db, out), userId, client, autos, ps, broadcast);
    var j := 0;
    while j < |ps|
      invariant 0 <= j <= |ps|
      invariant db.Valid()
      invariant env == EnvOf(db, out, f, now)
      invariant ProcessOrders(env, WorldOf(db, out), userId, client, autos, ps[j..], broadcast) == after
    {
      ProcessOrdersStep(env, WorldOf(db, out), userId, client, autos, ps, j, broadcast);
      threw := DispatchOrder(db, out, userId, client, autos, ps[j], broadcast, f, now);
      if threw {
        return;
      }
      j := j + 1;
    }
    assert ps[j..] == [];
    return false;
  }

  /** The sweep over the orders from the `j`-th on, one order at a time. */
  lemma ProcessOrdersStep(env: Env, w: World, userId: int, client: Option<nat>, autos: map<string, Config>,
                          ps: seq<Pedido>, j: nat, broadcast: bool)
    requires j < |ps|
    ensures var (w1, o) := ProcessOrder(env, w, userId, client, autos, ps[j], broadcast);
      ProcessOrders(env, w, userId, client, autos, ps[j..], broadcast)
      == if o.Fail? then (w1, o) else ProcessOrders(env, w1, userId, client, autos, ps[j + 1..], broadcast)
  {
    assert ps[j..][0] == ps[j] && ps[j..][1..] == ps[j + 1..];
  }

  /** One connected session of the sweep: its automations and orders are read, then its
      orders are dispatched; `true` when a read failed or an order threw, which ends the `try`. */
  method DispatchSession(db: Database, out: Outbox, userId: int, s: Session, broadcast: bool,
                         f: Formats, now: int) returns (stop: bool)
    requires db.Valid()
    modifies db`pedidos, db`historico, db`nextHistoricoId, db`logs, out
    ensures db.Valid()
    ensures Automacoes in db.readFails || Pedidos in db.readFails ==> stop && WorldOf(db, out) == old(WorldOf(db, out))
    ensures Automacoes !in db.readFails && Pedidos !in db.readFails ==>
      var (w1, o) := ProcessOrders(EnvOf(db, out, f, now), old(WorldOf(db, out)), userId, s.client,
                                   Merged(Templates, db.automacoes, userId),
                                   PedidoService.AllPedidos(old(db.pedidos), Some(userId)), broadcast);
      WorldOf(db, out) == w1 && stop == o.Fail?
  {
    var autos := GetAutomations(db, Some(userId));
    if autos.Err? {
      return true;
    }
    var pedidos := PedidoService.GetAllPedidos(db, Some(userId));
    if pedidos.Err? {
      return true;
    }
    stop := DispatchTenant(db, out, userId, s.client, autos.value, pedidos.value, broadcast, f, now);
  }

  /** The sweep over the sessions from the `i`-th on, one session at a time. */
  lemma ProcessSessionsStep(env: Env, w: World, rows: map<(string, int), AutomationRow>,
                            sessions: seq<(int, Session)>, i: nat, broadcast: bool)
    requires i < |sessions|
    ensures var (userId, s) := sessions[i];
      ProcessSessions(env, w, rows, sessions[i..], broadcast)
      == if s.status != Connected then ProcessSessions(env, w, rows, sessions[i + 1..], broadcast)
         else if Automacoes in env.readFails || Pedidos in env.readFails then w
         else
           var (w1, o) := ProcessOrders(env, w, userId, s.client, Merged(Templates, rows, userId),
                                        PedidoService.AllPedidos(w.pedidos, Some(userId)), broadcast);
           if o.Fail? then w1 else ProcessSessions(env, w1, rows, sessions[i + 1..], broadcast)
  {
    assert sessions[i..][0] == sessions[i] && sessions[i..][1..] == sessions[i + 1..];
  }

  /** `enviarMensagensComRegras(db, broadcast, sessions)`: the whole sweep inside one `try`. */
  method EnviarMensagensComRegras(db: Database, out: Outbox, broadcast: bool, sessions: seq<(int, Session)>,
                                  f: Formats, now: int)
    requires db.Valid()
    modifies db`pedidos, db`historico, db`nextHistoricoId, db`logs, out
    ensures db.Valid()
    ensures WorldOf(db, out) == ProcessSessions(EnvOf(db, out, f, now), old(WorldOf(db, out)), db.automacoes, sessions, broadcast)
  {
    ghost var env := EnvOf(db, out, f, now);
    ghost var target := ProcessSessions(env, WorldOf(db, out), db.automacoes, sessions, broadcast);
    var i := 0;
    while i < |sessions|
      invariant 0 <= i <= |sessions|
      invariant db.Valid()
      invariant env == EnvOf(db, out, f, now)
      invariant ProcessSessions(env, WorldOf(db, out), db.automacoes, sessions[i..], broadcast) == target
    {
      var (userId, s) := sessions[i];
      ProcessSessionsStep(env, WorldOf(db, out), db.automacoes, sessions, i, broadcast);
      if s.status != Connected {
        i := i + 1;
        continue;
      }
      var stop := DispatchSession(db, out, userId, s, broadcast, f, now);
      if stop {
        return;
      }
      i := i + 1;
    }
    assert sessions[i..] == [];
  }

  // ---- Properties of the dispatcher ----

  /** The exclusion list of rule 2 is exactly the six non-welcome triggers of the table. */
  lemma SentKeysAreTheTrackingTriggers()
    ensures SentKeys == TrackingKeys
    ensures (set k | k in SentKeys) == Templates.Keys - {BoasVindas}
  {
    TrackingKeysAreTheRest();
  }

  /** The first condition that holds decides the trigger whatever its configuration: a
      missing or inactive first match silences the order even when a later rule would have
      found an active trigger. */
  lemma FirstConditionDecides(p: Pedido, autos: map<string, Config>, f: Formats)
    requires Classify(p).Some?
    requires Classify(p).value.key !in autos || !autos[Classify(p).value.key].ativo
    ensures Decide(p, autos, f) == Quiet
  {
  }

  /** Rule 3 is reached when there is a code whose marker is one of the six names, and then
      it fires when the lowercased status differs from the marker. */
  lemma RuleThreeChosen(p: Pedido)
    requires Truthy(StrCol(p, CodigoRastreio))
    requires StrCol(p, MensagemUltimoStatus).Some? && StrCol(p, MensagemUltimoStatus).value in SentKeys
    requires Truthy(StrCol(p, StatusInterno)) && Some(Lower(StrCol(p, StatusInterno).value)) != StrCol(p, MensagemUltimoStatus)
    ensures var status := Lower(StrCol(p, StatusInterno).value);
      Classify(p) == Some(Trigger(UnderscoreWhitespace(status), status))
  {
  }

  /** Rule 3 looks its configuration up under the status with whitespace turned into '_',
      but writes the marker with the whitespace kept: the two differ for a status of several
      words. */
  lemma RuleThreeKeyDiffersFromMarker(p: Pedido, k: int)
    requires Classify(p).Some? && Classify(p).value.key != BoasVindas && Classify(p).value.key != EnvioRastreio
    requires var m := Classify(p).value.marker; 0 <= k < |m| && IsWhitespace(m[k])
    ensures Classify(p).value.key[k] == '_' && Classify(p).value.marker[k] != '_'
  {
  }

  /** The order as the next sweep reads it after its marker was written: code and status as
      they were, the marker replaced. */
  predicate Remarked(p: Pedido, q: Pedido, marker: string)
  {
    && Get(q, CodigoRastreio) == Get(p, CodigoRastreio)
    && Get(q, StatusInterno) == Get(p, StatusInterno)
    && Get(q, MensagemUltimoStatus) == Str(marker)
  }

  /** The marker is what makes a sweep idempotent: once it is written, the same trigger is
      not chosen again for the unchanged order. */
  lemma NoImmediateRepeat(p: Pedido, q: Pedido)
    requires Classify(p).Some? && Remarked(p, q, Classify(p).value.marker)
    ensures Classify(q) != Classify(p)
  {
    var t := Classify(p).value;
    assert StrCol(q, CodigoRastreio) == StrCol(p, CodigoRastreio);
    assert StrCol(q, StatusInterno) == StrCol(p, StatusInterno);
    assert StrCol(q, MensagemUltimoStatus) == Some(t.marker);
    assert EnvioRastreio in SentKeys;
  }

  /** The multi-word status quirk: after rule 3 wrote a status marker that is not one of the
      six trigger names (any status of several words), an order with a code meets rule 2's
      condition on the next sweep and is given `envio_rastreio` again. */
  lemma StatusMarkerReopensRuleTwo(p: Pedido, q: Pedido)
    requires Classify(p).Some? && Classify(p).value.key != BoasVindas && Classify(p).value.key != EnvioRastreio
    requires Truthy(StrCol(p, CodigoRastreio)) && Classify(p).value.marker !in SentKeys
    requires Remarked(p, q, Classify(p).value.marker)
    ensures Classify(q) == Some(Trigger(EnvioRastreio, EnvioRastreio))
  {
    assert StrCol(q, CodigoRastreio) == StrCol(p, CodigoRastreio);
    assert StrCol(q, MensagemUltimoStatus) == Some(Classify(p).value.marker);
  }

  /** A status marker settles the order when rule 2 cannot reopen it: without a code, or
      with a status that is one of the six names, the next sweep chooses nothing. */
  lemma StatusMarkerSettles(p: Pedido, q: Pedido)
    requires Classify(p).Some? && Classify(p).value.key != BoasVindas && Classify(p).value.key != EnvioRastreio
    requires !Truthy(StrCol(p, CodigoRastreio)) || Classify(p).value.marker in SentKeys
    requires Remarked(p, q, Classify(p).value.marker)
    ensures Classify(q) == None
  {
    assert StrCol(q, CodigoRastreio) == StrCol(p, CodigoRastreio);
    assert StrCol(q, StatusInterno) == StrCol(p, StatusInterno);
    assert StrCol(q, MensagemUltimoStatus) == Some(Classify(p).value.marker);
  }

  /** No message, or no client: the order is passed over without any effect. */
  lemma QuietLeavesWorld(env: Env, w: World, userId: int, client: Option<nat>, autos: map<string, Config>,
                         p: Pedido, broadcast: bool)
    requires Decide(p, autos, env.f).Quiet? || client.None?
    ensures ProcessOrder(env, w, userId, client, autos, p, broadcast) == (w, Pass)
  {
  }

  /** A tenant none of whose orders has a message is left exactly as it was. */
  lemma {:induction false} QuietTenantUntouched(env: Env, w: World, userId: int, client: Option<nat>,
                                                autos: map<string, Config>, ps: seq<Pedido>, broadcast: bool)
    requires forall k :: 0 <= k < |ps| ==> Decide(ps[k], autos, env.f).Quiet?
    ensures ProcessOrders(env, w, userId, client, autos, ps, broadcast) == (w, Pass)
    decreases |ps|
  {
    if ps != [] {
      assert Decide(ps[0], autos, env.f).Quiet?;
      QuietTenantUntouched(env, w, userId, client, autos, ps[1..], broadcast);
    }
  }

  /** A send the client rejects ends the order before anything is recorded: no history, no
      marker, no log and no live update. */
  lemma SendFailureWritesNothing(env: Env, w: World, userId: int, client: nat, autos: map<string, Config>,
                                 p: Pedido, broadcast: bool)
    requires Decide(p, autos, env.f).Fire?
    requires env.refuses(client, WhatsApp.TextRequest(StrCol(p, Telefone), Decide(p, autos, env.f).text))
    ensures ProcessOrder(env, w, userId, Some(client), autos, p, broadcast) == (w, Fail(WhatsApp.ClientRejected))
  {
  }

  /** The marker update names only the marker column. */
  lemma MarkerCamposKept(marker: string)
    ensures PedidoService.Kept(MarkerCampos(marker)) == [(MensagemUltimoStatus, Str(marker))]
    ensures PedidoService.DistinctColumns(PedidoService.Kept(MarkerCampos(marker)))
  {
    assert MarkerCampos(marker)[1..] == [];
  }

  /** A send the client accepts, with no storage fault: one call, one history entry, and the
      order keeps its code, status and marker. */
  lemma SendAndRecordEffects(env: Env, w: World, client: nat, p: Pedido, text: string, tipo: string, i: int)
    requires env.writeFails == {}
    requires !env.refuses(client, WhatsApp.TextRequest(StrCol(p, Telefone), text))
    requires UniquePhonePerTenant(w.pedidos) && 0 <= i < |w.pedidos|
    ensures var (w1, o) := SendAndRecord(env, w, client, p, text, tipo);
      && o == Pass
      && w1.historico == w.historico + [HistoricoEntry(w.nextHistoricoId, p.id, p.clienteId, text, tipo, "bot", None, "texto")]
      && w1.nextHistoricoId == w.nextHistoricoId + 1
      && w1.logs == w.logs
      && w1.events == w.events + [Call(client, WhatsApp.TextRequest(StrCol(p, Telefone), text))]
      && UniquePhonePerTenant(w1.pedidos) && |w1.pedidos| == |w.pedidos|
      && w1.pedidos[i].id == w.pedidos[i].id && w1.pedidos[i].clienteId == w.pedidos[i].clienteId
      && Get(w1.pedidos[i], CodigoRastreio) == Get(w.pedidos[i], CodigoRastreio)
      && Get(w1.pedidos[i], StatusInterno) == Get(w.pedidos[i], StatusInterno)
  {
    var kept := PedidoService.LastMessage(Some(text), env.now);
    assert PedidoService.DistinctColumns(kept);
    PedidoService.PhoneFreeUpdate(w.pedidos, p.id, p.clienteId, kept, i, CodigoRastreio);
    PedidoService.PhoneFreeUpdate(w.pedidos, p.id, p.clienteId, kept, i, StatusInterno);
  }

  /** The marking after a send, with no storage fault: the marker on the matched order, one
      log row and, when broadcasting, one live update; code and status stay. */
  lemma MarkEffects(env: Env, w: World, p: Pedido, marker: string, tenant: Option<int>, broadcast: bool, i: int)
    requires env.writeFails == {}
    requires UniquePhonePerTenant(w.pedidos)
    requires 0 <= i < |w.pedidos| && PedidoService.Matches(w.pedidos[i], p.id, tenant)
    ensures var (w1, o) := Mark(env, w, p, marker, tenant, broadcast);
      && o == Pass
      && w1.historico == w.historico && w1.nextHistoricoId == w.nextHistoricoId
      && w1.logs == w.logs + [LogEntry(Some(LogTenant(p.clienteId)), "mensagem_automatica", Dispatched(p.id, marker))]
      && w1.events == w.events + (if broadcast then [Push(tenant, NovaMensagem(p.id))] else [])
      && |w1.pedidos| == |w.pedidos| && Remarked(w.pedidos[i], w1.pedidos[i], marker)
  {
    MarkerCamposKept(marker);
    var marks := PedidoService.Kept(MarkerCampos(marker));
    PedidoService.PhoneFreeUpdate(w.pedidos, p.id, tenant, marks, i, CodigoRastreio);
    PedidoService.PhoneFreeUpdate(w.pedidos, p.id, tenant, marks, i, StatusInterno);
    PedidoService.PhoneFreeUpdate(w.pedidos, p.id, tenant, marks, i, MensagemUltimoStatus);
  }

  /** With no storage fault and a client that accepts the request, a firing order yields, in
      this order: the client call, one history entry of the sent text typed by the marker,
      the marker on the order, one log row and (when broadcasting) one live update to the
      tenant; the order's code and status are left alone. */
  lemma DispatchEffects(env: Env, w: World, userId: int, client: nat, autos: map<string, Config>,
                        p: Pedido, broadcast: bool, i: int)
    requires Decide(p, autos, env.f).Fire?
    requires env.writeFails == {}
    requires !env.refuses(client, WhatsApp.TextRequest(StrCol(p, Telefone), Decide(p, autos, env.f).text))
    requires UniquePhonePerTenant(w.pedidos)
    requires 0 <= i < |w.pedidos| && PedidoService.Matches(w.pedidos[i], p.id, Some(userId))
    ensures var d := Decide(p, autos, env.f);
      var (w1, o) := ProcessOrder(env, w, userId, Some(client), autos, p, broadcast);
      && o == Pass
      && w1.historico == w.historico + [HistoricoEntry(w.nextHistoricoId, p.id, p.clienteId, d.text, d.marker, "bot", None, "texto")]
      && w1.nextHistoricoId == w.nextHistoricoId + 1
      && w1.logs == w.logs + [LogEntry(Some(LogTenant(p.clienteId)), "mensagem_automatica", Dispatched(p.id, d.marker))]
      && w1.events == w.events + [Call(client, WhatsApp.TextRequest(StrCol(p, Telefone), d.text))]
           + (if broadcast then [Push(Some(userId), NovaMensagem(p.id))] else [])
      && |w1.pedidos| == |w.pedidos| && Remarked(w.pedidos[i], w1.pedidos[i], d.marker)
  {
    var d := Decide(p, autos, env.f);
    SendAndRecordEffects(env, w, client, p, d.text, d.marker, i);
    var (w1, _) := SendAndRecord(env, w, client, p, d.text, d.marker);
    MarkEffects(env, w1, p, d.marker, Some(userId), broadcast, i);
  }

  /** `enviarMensagemBoasVindas` without a client sends nothing and records no history, yet
      still writes the `boas_vindas` marker, the log row and the live update. */
  lemma WelcomeWithoutClient(env: Env, w: World, config: Config, p: Pedido, broadcast: bool, i: int)
    requires config.ativo && env.writeFails == {}
    requires UniquePhonePerTenant(w.pedidos)
    requires 0 <= i < |w.pedidos| && PedidoService.Matches(w.pedidos[i], p.id, p.clienteId)
    ensures var (w1, o) := Welcome(env, w, config, p, None, broadcast);
      && o == Pass
      && w1.historico == w.historico && w1.nextHistoricoId == w.nextHistoricoId
      && w1.logs == w.logs + [LogEntry(Some(LogTenant(p.clienteId)), "mensagem_automatica", Dispatched(p.id, BoasVindas))]
      && w1.events == w.events + (if broadcast then [Push(p.clienteId, NovaMensagem(p.id))] else [])
      && |w1.pedidos| == |w.pedidos| && Remarked(w.pedidos[i], w1.pedidos[i], BoasVindas)
  {
    MarkEffects(env, w, p, BoasVindas, p.clienteId, broadcast, i);
  }

  /** A tenant with a single order is that order's dispatch. */
  lemma OneOrder(env: Env, w: World, userId: int, client: Option<nat>, autos: map<string, Config>,
                 p: Pedido, broadcast: bool)
    ensures ProcessOrders(env, w, userId, client, autos, [p], broadcast)
         == ProcessOrder(env, w, userId, client, autos, p, broadcast)
  {
    assert [p][0] == p && [p][1..] == [];
  }

  /** A tenant whose one order fires, with no fault: the client call, then the live update,
      and the marker on the order. */
  lemma SingleDispatch(env: Env, w: World, userId: int, client: nat, autos: map<string, Config>,
                       p: Pedido, broadcast: bool, i: int)
    requires Decide(p, autos, env.f).Fire?
    requires env.writeFails == {}
    requires !env.refuses(client, WhatsApp.TextRequest(StrCol(p, Telefone), Decide(p, autos, env.f).text))
    requires UniquePhonePerTenant(w.pedidos)
    requires 0 <= i < |w.pedidos| && w.pedidos[i] == p && p.clienteId == Some(userId)
    ensures var d := Decide(p, autos, env.f);
      var (w1, o) := ProcessOrders(env, w, userId, Some(client), autos, [p], broadcast);
      && o == Pass
      && w1.events == w.events + [Call(client, WhatsApp.TextRequest(StrCol(p, Telefone), d.text))]
           + (if broadcast then [Push(Some(userId), NovaMensagem(p.id))] else [])
      && |w1.pedidos| == |w.pedidos| && Get(w1.pedidos[i], MensagemUltimoStatus) == Str(d.marker)
  {
    DispatchEffects(env, w, userId, client, autos, p, broadcast, i);
    OneOrder(env, w, userId, Some(client), autos, p, broadcast);
  }

  /** A throw ends the tenant's loop: the orders after the failing one are never looked at. */
  lemma {:induction false} AbortIgnoresRest(env: Env, w: World, userId: int, client: Option<nat>,
                                            autos: map<string, Config>, ps: seq<Pedido>, rest: seq<Pedido>, broadcast: bool)
    requires ProcessOrders(env, w, userId, client, autos, ps, broadcast).1.Fail?
    ensures ProcessOrders(env, w, userId, client, autos, ps + rest, broadcast)
         == ProcessOrders(env, w, userId, client, autos, ps, broadcast)
    decreases |ps|
  {
    assert ps != [];
    assert (ps + rest)[0] == ps[0] && (ps + rest)[1..] == ps[1..] + rest;
    var (w1, o) := ProcessOrder(env, w, userId, client, autos, ps[0], broadcast);
    if o.Pass? {
      AbortIgnoresRest(env, w1, userId, client, autos, ps[1..], rest, broadcast);
    }
  }

  /** A throw in one tenant also ends the sweep: the sessions after it are never looked at. */
  lemma AbortEndsSweep(env: Env, w: World, rows: map<(string, int), AutomationRow>, s: (int, Session),
                       more: seq<(int, Session)>, broadcast: bool)
    requires s.1.status == Connected && Automacoes !in env.readFails && Pedidos !in env.readFails
    requires ProcessOrders(env, w, s.0, s.1.client, Merged(Templates, rows, s.0),
                           PedidoService.AllPedidos(w.pedidos, Some(s.0)), broadcast).1.Fail?
    ensures ProcessSessions(env, w, rows, [s] + more, broadcast)
         == ProcessOrders(env, w, s.0, s.1.client, Merged(Templates, rows, s.0),
                          PedidoService.AllPedidos(w.pedidos, Some(s.0)), broadcast).0
  {
    assert ([s] + more)[0] == s;
  }

  /** A session that is not connected is skipped. */
  lemma NotConnectedSkipped(env: Env, w: World, rows: map<(string, int), AutomationRow>, s: (int, Session),
                            more: seq<(int, Session)>, broadcast: bool)
    requires s.1.status != Connected
    ensures ProcessSessions(env, w, rows, [s] + more, broadcast) == ProcessSessions(env, w, rows, more, broadcast)
  {
    assert ([s] + more)[0] == s && ([s] + more)[1..] == more;
  }
}
