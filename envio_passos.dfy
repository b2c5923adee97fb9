/** `enviarPassos`: an automation made of ordered steps. The steps are sorted in place by
    `ordem`, then each one is rendered, sent according to its kind, written to the history
    and followed by a one-second pause; the first step that throws ends the run. */
module EnvioPassos {
  import opened Util
  import opened Db
  import opened Wire
  import opened Template
  import opened Envio
  import PedidoService = Pedidos
  import WhatsApp

  /** A row of `automacao_passos`. */
  datatype Passo = Passo(ordem: int, tipo: string, conteudo: Option<string>, mediaUrl: Option<string>)

  /** The pause after every step, in milliseconds. */
  const StepPause := 1000

  predicate SortedByOrdem(s: seq<Passo>)
  {
    forall i, j :: 0 <= i < j < |s| ==> s[i].ordem <= s[j].ordem
  }

  // ---- Sorting the steps in place ----

  /** Exchanges the step at `j` with the one before it. */
  method SwapDown(a: array<Passo>, j: int)
    requires 0 < j < a.Length
    modifies a
    ensures a[..] == old(a[..])[j - 1 := old(a[j])][j := old(a[j - 1])]
    ensures multiset(a[..]) == multiset(old(a[..]))
  {
    a[j - 1], a[j] := a[j], a[j - 1];
  }

  /** Moves the step at `i` down into the sorted prefix `a[..i]`. */
  method InsertStep(a: array<Passo>, i: int)
    requires 0 <= i < a.Length
    requires SortedByOrdem(a[..i])
    modifies a
    ensures SortedByOrdem(a[..i + 1])
    ensures a[i + 1..] == old(a[i + 1..])
    ensures multiset(a[..]) == multiset(old(a[..]))
  {
    var j := i;
    while j > 0 && a[j - 1].ordem > a[j].ordem
      invariant 0 <= j <= i
      invariant a[i + 1..] == old(a[i + 1..])
      invariant multiset(a[..]) == multiset(old(a[..]))
      invariant forall k, l :: 0 <= k < l <= i && l != j ==> a[k].ordem <= a[l].ordem
      invariant 0 < j < i ==> a[j - 1].ordem <= a[j + 1].ordem
    {
      SwapDown(a, j);
      j := j - 1;
    }
  }

  /** `steps.sort((a, b) => a.ordem - b.ordem)`, as an insertion sort. */
  method SortSteps(a: array<Passo>)
    modifies a
    ensures SortedByOrdem(a[..])
    ensures multiset(a[..]) == multiset(old(a[..]))
  {
    var i := 0;
    while i < a.Length
      invariant 0 <= i <= a.Length
      invariant SortedByOrdem(a[..i])
      invariant multiset(a[..]) == multiset(old(a[..]))
    {
      InsertStep(a, i);
      i := i + 1;
    }
    assert a[..i] == a[..];
  }

  // ---- One step ----

  /** What a step asks of the gateway: nothing, one send (whose request may be impossible
      to build), or an immediate throw. */
  datatype Action = Nothing | Ask(req: Option<Request>) | Throw(error: string)

  predicate IsMediaKind(tipo: string)
  {
    tipo == "imagem" || tipo == "audio" || tipo == "arquivo" || tipo == "video"
  }

  /** The `switch (passo.tipo)`: the four media kinds and, for any other kind, a text
      message when the rendered text is truthy. */
  function StepAction(dirname: string, telefone: Option<string>, passo: Passo, texto: Option<string>): (a: Action)
    ensures !IsMediaKind(passo.tipo) && !Truthy(texto) ==> a == Nothing
    ensures !IsMediaKind(passo.tipo) && Truthy(texto) ==> a == Ask(Some(WhatsApp.TextRequest(telefone, texto.value)))
    ensures a.Throw? <==> passo.tipo == "arquivo" && passo.mediaUrl.None?
  {
    var caption := OrEmpty(texto);
    if passo.tipo == "imagem" then Ask(WhatsApp.ImageRequest(dirname, telefone, passo.mediaUrl, caption))
    else if passo.tipo == "audio" then Ask(Some(WhatsApp.VoiceRequest(dirname, telefone, passo.mediaUrl)))
    else if passo.tipo == "arquivo" then
      // `path.basename(passo.mediaUrl)` is evaluated before the call and throws on null.
      if passo.mediaUrl.None? then Throw(WhatsApp.PathTypeError)
      else Ask(Some(WhatsApp.FileRequest(dirname, telefone, passo.mediaUrl,
                                         Some(WhatsApp.Basename(passo.mediaUrl.value)), caption)))
    else if passo.tipo == "video" then Ask(WhatsApp.VideoRequest(dirname, telefone, passo.mediaUrl, caption))
    else if Truthy(texto) then Ask(Some(WhatsApp.TextRequest(telefone, texto.value)))
    else Nothing
  }

  /** The send of a step and its effect on the trace. */
  function Perform(env: Env, w: World, client: Option<nat>, a: Action): (World, Outcome)
  {
    match a
    case Nothing => (w, Pass)
    case Throw(e) => (w, Fail(e))
    case Ask(req) =>
      var d := WhatsApp.Deliver(env.refuses, client, req);
      (w.(events := w.events + d.emitted), d.outcome)
  }

  /** The history row of a step (message '' when the render is null). */
  function StepEntry(id: int, p: Pedido, passo: Passo, texto: Option<string>): HistoricoEntry
  {
    HistoricoEntry(id, p.id, p.clienteId, if texto.Some? then texto.value else "",
                   "automacao", "bot", OrNull(passo.mediaUrl), passo.tipo)
  }

  /** `addMensagemHistorico` of the step, then the pause. */
  function Record(env: Env, w: World, p: Pedido, passo: Passo, texto: Option<string>): (World, Outcome)
  {
    if Historico in env.writeFails then (w, Fail(StorageError))
    else
      var w1 := w.(historico := w.historico + [StepEntry(w.nextHistoricoId, p, passo, texto)],
                   nextHistoricoId := w.nextHistoricoId + 1,
                   pedidos := PedidoService.UpdateStatement(w.pedidos, p.id, p.clienteId,
                     PedidoService.LastMessage(texto, env.now), Pedidos in env.writeFails).1);
      (w1.(events := w1.events + [Sleep(StepPause)]), Pass)
  }

  /** One iteration of the loop: render, send, record, pause. */
  function Step(env: Env, w: World, dirname: string, client: Option<nat>, telefone: Option<string>,
                p: Pedido, passo: Passo): (World, Outcome)
  {
    var texto := Personalizar(passo.conteudo, p, env.f);
    var (w1, sent) := Perform(env, w, client, StepAction(dirname, telefone, passo, texto));
    if sent.Fail? then (w1, sent) else Record(env, w1, p, passo, texto)
  }

  /** The loop of `enviarPassos` for a given loop body `st`: the steps in order, until one throws. */
  function Run(st: (World, Passo) -> (World, Outcome), w: World, s: seq<Passo>): (World, Outcome)
    decreases |s|
  {
    if s == [] then (w, Pass)
    else
      var (w1, o) := st(w, s[0]);
      if o.Fail? then (w1, o) else Run(st, w1, s[1..])
  }

  /** One iteration of the loop: after the i-th step, the rest of the run is decided. */
  lemma RunAdvance(st: (World, Passo) -> (World, Outcome), w: World, s: seq<Passo>, i: int, w1: World, r: Outcome)
    requires 0 <= i < |s| && (w1, r) == st(w, s[i])
    ensures r.Fail? ==> Run(st, w, s[i..]) == (w1, r)
    ensures r.Pass? ==> Run(st, w, s[i..]) == Run(st, w1, s[i + 1..])
  {
    assert s[i..][0] == s[i] && s[i..][1..] == s[i + 1..];
  }

  /** The loop body of `enviarPassos` for one call. */
  function StepOf(env: Env, dirname: string, client: Option<nat>, telefone: Option<string>, p: Pedido)
    : (World, Passo) -> (World, Outcome)
  {
    (w: World, q: Passo) => Step(env, w, dirname, client, telefone, p, q)
  }

  /** The steps in the given order, until one throws. */
  function RunSteps(env: Env, w: World, dirname: string, client: Option<nat>, telefone: Option<string>,
                    p: Pedido, s: seq<Passo>): (World, Outcome)
  {
    Run(StepOf(env, dirname, client, telefone, p), w, s)
  }

  // ---- The methods ----

  /** The `switch` of the loop of `enviarPassos`. */
  method PerformStep(out: Outbox, dirname: string, client: Option<nat>, telefone: Option<string>,
                     passo: Passo, texto: Option<string>, ghost env: Env, ghost w: World) returns (r: Outcome)
    requires env.refuses == out.refuses && w.events == out.events
    modifies out
    ensures (w.(events := out.events), r) == Perform(env, w, client, StepAction(dirname, telefone, passo, texto))
  {
    if passo.tipo == "imagem" {
      r := PerformImage(out, dirname, client, telefone, passo, texto, env, w);
    } else if passo.tipo == "audio" {
      r := PerformAudio(out, dirname, client, telefone, passo, texto, env, w);
    } else if passo.tipo == "arquivo" {
      r := PerformFile(out, dirname, client, telefone, passo, texto, env, w);
    } else if passo.tipo == "video" {
      r := PerformVideo(out, dirname, client, telefone, passo, texto, env, w);
    } else if Truthy(texto) {
      ghost var a := StepAction(dirname, telefone, passo, texto);
      assert a == Ask(Some(WhatsApp.TextRequest(telefone, texto.value)));
      r := WhatsApp.EnviarMensagem(out, client, telefone, texto.value);
    } else {
      r := Pass;
    }
  }

  /** `case 'imagem'`: `sendImage` with the resolved path and the rendered caption. */
  method PerformImage(out: Outbox, dirname: string, client: Option<nat>, telefone: Option<string>,
                      passo: Passo, texto: Option<string>, ghost env: Env, ghost w: World) returns (r: Outcome)
    requires passo.tipo == "imagem"
    requires env.refuses == out.refuses && w.events == out.events
    modifies out
    ensures (w.(events := out.events), r) == Perform(env, w, client, StepAction(dirname, telefone, passo, texto))
  {
    var caption := OrEmpty(texto);
    ghost var a := StepAction(dirname, telefone, passo, texto);
    assert a == Ask(WhatsApp.ImageRequest(dirname, telefone, passo.mediaUrl, caption));
    r := WhatsApp.SendImageTo(out, dirname, client, telefone, passo.mediaUrl, caption);
  }

  /** `case 'audio'`: `sendAudio` with the resolved path. */
  method PerformAudio(out: Outbox, dirname: string, client: Option<nat>, telefone: Option<string>,
                      passo: Passo, texto: Option<string>, ghost env: Env, ghost w: World) returns (r: Outcome)
    requires passo.tipo == "audio"
    requires env.refuses == out.refuses && w.events == out.events
    modifies out
    ensures (w.(events := out.events), r) == Perform(env, w, client, StepAction(dirname, telefone, passo, texto))
  {
    ghost var a := StepAction(dirname, telefone, passo, texto);
    assert a == Ask(Some(WhatsApp.VoiceRequest(dirname, telefone, passo.mediaUrl)));
    r := WhatsApp.SendAudio(out, dirname, client, telefone, passo.mediaUrl);
  }

  /** `case 'arquivo'`: `sendFile` named by the URL's basename, which throws on a null URL. */
  method PerformFile(out: Outbox, dirname: string, client: Option<nat>, telefone: Option<string>,
                     passo: Passo, texto: Option<string>, ghost env: Env, ghost w: World) returns (r: Outcome)
    requires passo.tipo == "arquivo"
    requires env.refuses == out.refuses && w.events == out.events
    modifies out
    ensures (w.(events := out.events), r) == Perform(env, w, client, StepAction(dirname, telefone, passo, texto))
  {
    if passo.mediaUrl.None? {
      return Fail(WhatsApp.PathTypeError);
    }
    var caption := OrEmpty(texto);
    var name := WhatsApp.Basename(passo.mediaUrl.value);
    ghost var a := StepAction(dirname, telefone, passo, texto);
    assert a == Ask(Some(WhatsApp.FileRequest(dirname, telefone, passo.mediaUrl, Some(name), caption)));
    r := WhatsApp.SendFileTo(out, dirname, client, telefone, passo.mediaUrl, Some(name), caption);
  }

  /** `case 'video'`: `sendVideo` with the resolved path and the rendered caption. */
  method PerformVideo(out: Outbox, dirname: string, client: Option<nat>, telefone: Option<string>,
                      passo: Passo, texto: Option<string>, ghost env: Env, ghost w: World) returns (r: Outcome)
    requires passo.tipo == "video"
    requires env.refuses == out.refuses && w.events == out.events
    modifies out
    ensures (w.(events := out.events), r) == Perform(env, w, client, StepAction(dirname, telefone, passo, texto))
  {
    var caption := OrEmpty(texto);
    ghost var a := StepAction(dirname, telefone, passo, texto);
    assert a == Ask(WhatsApp.VideoRequest(dirname, telefone, passo.mediaUrl, caption));
    r := WhatsApp.SendVideo(out, dirname, client, telefone, passo.mediaUrl, caption);
  }

  /** The history write and the pause that end an iteration. */
  method RecordStep(db: Database, out: Outbox, p: Pedido, passo: Passo, texto: Option<string>,
                    f: Formats, now: int) returns (r: Outcome)
    requires db.Valid()
    modifies db`historico, db`nextHistoricoId, db`pedidos, out
    ensures db.Valid()
    ensures (WorldOf(db, out), r) == Record(EnvOf(db, out, f, now), old(WorldOf(db, out)), p, passo, texto)
  {
    var h := PedidoService.AddMensagemHistorico(db, p.id, texto, "automacao", "bot", p.clienteId,
                                                OrNull(passo.mediaUrl), passo.tipo, now);
    if h.Err? {
      return Fail(h.error);
    }
    out.events := out.events + [Sleep(StepPause)];
    r := Pass;
  }

  /** The body of the loop of `enviarPassos`. */
  method SendStep(db: Database, out: Outbox, dirname: string, client: Option<nat>, telefone: Option<string>,
                  p: Pedido, passo: Passo, f: Formats, now: int) returns (r: Outcome)
    requires db.Valid()
    modifies db`historico, db`nextHistoricoId, db`pedidos, out
    ensures db.Valid()
    ensures (WorldOf(db, out), r) == Step(EnvOf(db, out, f, now), old(WorldOf(db, out)), dirname, client, telefone, p, passo)
  {
    var texto := Personalizar(passo.conteudo, p, f);
    r := PerformStep(out, dirname, client, telefone, passo, texto, EnvOf(db, out, f, now), WorldOf(db, out));
    if r.Fail? {
      return;
    }
    r := RecordStep(db, out, p, passo, texto, f, now);
  }

  /** `enviarPassos(db, client, telefone, steps, pedido)`: the caller's array ends up sorted,
      and the steps run in that order. */
  method EnviarPassos(db: Database, out: Outbox, dirname: string, client: Option<nat>, telefone: Option<string>,
                      steps: array<Passo>, p: Pedido, f: Formats, now: int) returns (r: Outcome)
    requires db.Valid()
    modifies steps, db`historico, db`nextHistoricoId, db`pedidos, out
    ensures db.Valid()
    ensures SortedByOrdem(steps[..]) && multiset(steps[..]) == multiset(old(steps[..]))
    ensures (WorldOf(db, out), r) == RunSteps(EnvOf(db, out, f, now), old(WorldOf(db, out)), dirname, client, telefone, p, steps[..])
  {
    SortSteps(steps);
    r := SendSteps(db, out, dirname, client, telefone, steps[..], p, f, now);
  }

  /** The loop of `enviarPassos` over the sorted steps. */
  method SendSteps(db: Database, out: Outbox, dirname: string, client: Option<nat>, telefone: Option<string>,
                   s: seq<Passo>, p: Pedido, f: Formats, now: int) returns (r: Outcome)
    requires db.Valid()
    modifies db`historico, db`nextHistoricoId, db`pedidos, out
    ensures db.Valid()
    ensures (WorldOf(db, out), r) == RunSteps(EnvOf(db, out, f, now), old(WorldOf(db, out)), dirname, client, telefone, p, s)
  {
    ghost var st := StepOf(EnvOf(db, out, f, now), dirname, client, telefone, p);
    ghost var target := Run(st, WorldOf(db, out), s);
    var i := 0;
    while i < |s|
      invariant 0 <= i <= |s|
      invariant db.Valid()
      invariant Run(st, WorldOf(db, out), s[i..]) == target
    {
      ghost var w := WorldOf(db, out);
      r := SendStep(db, out, dirname, client, telefone, p, s[i], f, now);
      RunAdvance(st, w, s, i, WorldOf(db, out), r);
      if r.Fail? {
        return;
      }
      i := i + 1;
    }
    assert s[i..] == [];
    r := Pass;
  }

  // ---- Properties ----

  /** The number of pauses in a trace. */
  function Pauses(es: seq<Event>): nat
  {
    if es == [] then 0 else (if es[0] == Sleep(StepPause) then 1 else 0) + Pauses(es[1..])
  }

  lemma {:induction false} PausesAppend(a: seq<Event>, b: seq<Event>)
    ensures Pauses(a + b) == Pauses(a) + Pauses(b)
    decreases |a|
  {
    if a == [] {
      assert a + b == b;
    } else {
      assert (a + b)[0] == a[0] && (a + b)[1..] == a[1..] + b;
      PausesAppend(a[1..], b);
    }
  }

  /** The requests of a delivery are client calls, never pauses. */
  lemma DeliveryHasNoPause(env: Env, client: Option<nat>, req: Option<Request>)
    ensures Pauses(WhatsApp.Deliver(env.refuses, client, req).emitted) == 0
  {
    var d := WhatsApp.Deliver(env.refuses, client, req);
    if d.outcome.Pass? {
      assert Pauses(d.emitted[1..]) == 0;
    }
  }

  /** The send of a step touches only the trace, appends no pause and keeps what was there. */
  lemma PerformEffects(env: Env, w: World, client: Option<nat>, a: Action)
    ensures var w1 := Perform(env, w, client, a).0;
      && w1 == w.(events := w1.events)
      && |w1.events| >= |w.events| && w1.events[..|w.events|] == w.events
      && Pauses(w1.events) == Pauses(w.events)
  {
    if a.Ask? {
      DeliveryHasNoPause(env, client, a.req);
      PausesAppend(w.events, WhatsApp.Deliver(env.refuses, client, a.req).emitted);
    } else {
      assert Perform(env, w, client, a).0 == w;
    }
  }

  /** The record of a step adds one row and one final pause, or, when the history write
      fails, nothing. */
  lemma RecordEffects(env: Env, w: World, p: Pedido, passo: Passo, texto: Option<string>)
    ensures var (w1, o) := Record(env, w, p, passo, texto);
      && |w1.events| >= |w.events| && w1.events[..|w.events|] == w.events
      && (o.Pass? ==>
           && w1.historico == w.historico + [StepEntry(w.nextHistoricoId, p, passo, texto)]
           && w1.nextHistoricoId == w.nextHistoricoId + 1
           && w1.events[|w1.events| - 1] == Sleep(StepPause)
           && Pauses(w1.events) == Pauses(w.events) + 1)
      && (o.Fail? ==> w1 == w)
  {
    if Historico !in env.writeFails {
      PausesAppend(w.events, [Sleep(StepPause)]);
    }
  }

  /** A step that completes adds exactly one history row, describing that step, and its
      trace ends with exactly one pause; a step that throws writes no history row. */
  lemma StepEffects(env: Env, w: World, dirname: string, client: Option<nat>, telefone: Option<string>,
                    p: Pedido, passo: Passo)
    ensures var (w1, o) := Step(env, w, dirname, client, telefone, p, passo);
      && |w1.events| >= |w.events| && w1.events[..|w.events|] == w.events
      && (o.Pass? ==>
           && w1.historico == w.historico + [StepEntry(w.nextHistoricoId, p, passo, Personalizar(passo.conteudo, p, env.f))]
           && w1.nextHistoricoId == w.nextHistoricoId + 1
           && w1.events[|w1.events| - 1] == Sleep(StepPause)
           && Pauses(w1.events) == Pauses(w.events) + 1)
      && (o.Fail? ==> w1.historico == w.historico && w1.nextHistoricoId == w.nextHistoricoId
                      && Pauses(w1.events) == Pauses(w.events))
  {
    var texto := Personalizar(passo.conteudo, p, env.f);
    var a := StepAction(dirname, telefone, passo, texto);
    var w1 := Perform(env, w, client, a).0;
    PerformEffects(env, w, client, a);
    RecordEffects(env, w1, p, passo, texto);
    assert w1.events[..|w.events|] == w.events;
    var w2 := Record(env, w1, p, passo, texto).0;
    assert w2.events[..|w1.events|][..|w.events|] == w2.events[..|w.events|];
  }

  /** The history rows `entry` describes for the steps `s`, numbered from `id`. */
  function Numbered(entry: (int, Passo) -> HistoricoEntry, id: int, s: seq<Passo>): (r: seq<HistoricoEntry>)
    decreases |s|
  {
    if s == [] then [] else [entry(id, s[0])] + Numbered(entry, id + 1, s[1..])
  }

  /** The k-th numbered row describes the k-th step and carries the k-th id. */
  lemma {:induction false} NumberedRows(entry: (int, Passo) -> HistoricoEntry, id: int, s: seq<Passo>)
    ensures |Numbered(entry, id, s)| == |s|
    ensures forall k :: 0 <= k < |s| ==> Numbered(entry, id, s)[k] == entry(id + k, s[k])
    decreases |s|
  {
    if s != [] {
      NumberedRows(entry, id + 1, s[1..]);
      forall k | 0 <= k < |s|
        ensures Numbered(entry, id, s)[k] == entry(id + k, s[k])
      {
        if k > 0 {
          assert s[1..][k - 1] == s[k];
        }
      }
    }
  }

  /** A loop body that, whenever it completes, appends the row `entry` describes, advances
      the id counter and pauses once. */
  ghost predicate RecordsEachStep(st: (World, Passo) -> (World, Outcome), entry: (int, Passo) -> HistoricoEntry)
  {
    forall w, q :: st(w, q).1.Pass? ==>
      && st(w, q).0.historico == w.historico + [entry(w.nextHistoricoId, q)]
      && st(w, q).0.nextHistoricoId == w.nextHistoricoId + 1
      && Pauses(st(w, q).0.events) == Pauses(w.events) + 1
  }

  /** With such a body, a completed run writes one row per step, in step order, and pauses once per step. */
  lemma {:induction false} RunRecords(st: (World, Passo) -> (World, Outcome), entry: (int, Passo) -> HistoricoEntry,
                                      w: World, s: seq<Passo>)
    requires RecordsEachStep(st, entry)
    requires Run(st, w, s).1.Pass?
    ensures Run(st, w, s).0.historico == w.historico + Numbered(entry, w.nextHistoricoId, s)
    ensures Run(st, w, s).0.nextHistoricoId == w.nextHistoricoId + |s|
    ensures Pauses(Run(st, w, s).0.events) == Pauses(w.events) + |s|
    decreases |s|
  {
    if s != [] {
      var w1 := st(w, s[0]).0;
      RunRecords(st, entry, w1, s[1..]);
      assert w.historico + [entry(w.nextHistoricoId, s[0])] + Numbered(entry, w.nextHistoricoId + 1, s[1..])
          == w.historico + Numbered(entry, w.nextHistoricoId, s);
    }
  }

  /** The row the loop body of `enviarPassos` writes for a step. */
  function EntryOf(f: Formats, p: Pedido): (int, Passo) -> HistoricoEntry
  {
    (id: int, q: Passo) => StepEntry(id, p, q, Personalizar(q.conteudo, p, f))
  }

  lemma StepRecords(env: Env, dirname: string, client: Option<nat>, telefone: Option<string>, p: Pedido)
    ensures RecordsEachStep(StepOf(env, dirname, client, telefone, p), EntryOf(env.f, p))
  {
    forall w, q ensures var st := Step(env, w, dirname, client, telefone, p, q);
      st.1.Pass? ==>
        && st.0.historico == w.historico + [StepEntry(w.nextHistoricoId, p, q, Personalizar(q.conteudo, p, env.f))]
        && st.0.nextHistoricoId == w.nextHistoricoId + 1
        && Pauses(st.0.events) == Pauses(w.events) + 1
    {
      StepEffects(env, w, dirname, client, telefone, p, q);
    }
  }

  /** A completed `enviarPassos` writes one history row per step, the k-th describing the
      k-th step, and pauses once per step. */
  lemma RunStepsEffects(env: Env, w: World, dirname: string, client: Option<nat>,
                        telefone: Option<string>, p: Pedido, s: seq<Passo>)
    requires RunSteps(env, w, dirname, client, telefone, p, s).1.Pass?
    ensures |RunSteps(env, w, dirname, client, telefone, p, s).0.historico| == |w.historico| + |s|
    ensures RunSteps(env, w, dirname, client, telefone, p, s).0.nextHistoricoId == w.nextHistoricoId + |s|
    ensures Pauses(RunSteps(env, w, dirname, client, telefone, p, s).0.events) == Pauses(w.events) + |s|
    ensures forall k :: 0 <= k < |s| ==>
      RunSteps(env, w, dirname, client, telefone, p, s).0.historico[|w.historico| + k]
      == StepEntry(w.nextHistoricoId + k, p, s[k], Personalizar(s[k].conteudo, p, env.f))
  {
    var st, entry := StepOf(env, dirname, client, telefone, p), EntryOf(env.f, p);
    StepRecords(env, dirname, client, telefone, p);
    RunRecords(st, entry, w, s);
    var rows := Numbered(entry, w.nextHistoricoId, s);
    var h := RunSteps(env, w, dirname, client, telefone, p, s).0.historico;
    assert h == w.historico + rows;
    NumberedRows(entry, w.nextHistoricoId, s);
    forall k | 0 <= k < |s|
      ensures h[|w.historico| + k] == StepEntry(w.nextHistoricoId + k, p, s[k], Personalizar(s[k].conteudo, p, env.f))
    {
      assert h[|w.historico| + k] == rows[k] == entry(w.nextHistoricoId + k, s[k]);
    }
  }

  /** A step of any kind other than the four media kinds behaves as a text step. */
  lemma UnknownKindIsText(dirname: string, telefone: Option<string>, passo: Passo, texto: Option<string>)
    requires !IsMediaKind(passo.tipo)
    ensures StepAction(dirname, telefone, passo, texto) == StepAction(dirname, telefone, passo.(tipo := "texto"), texto)
  {
  }

  /** A text step whose render is empty or null sends nothing, yet is still recorded and paused. */
  lemma EmptyTextSendsNothing(env: Env, w: World, dirname: string, client: Option<nat>, telefone: Option<string>,
                              p: Pedido, passo: Passo)
    requires !IsMediaKind(passo.tipo) && !Truthy(Personalizar(passo.conteudo, p, env.f))
    requires Historico !in env.writeFails
    ensures var (w1, o) := Step(env, w, dirname, client, telefone, p, passo);
      o == Pass && w1.events == w.events + [Sleep(StepPause)] && |w1.historico| == |w.historico| + 1
  {
  }

  /** A file step without a media URL throws before the client is used, even without a
      client, and leaves everything as it was. */
  lemma FileWithoutUrlThrows(env: Env, w: World, dirname: string, client: Option<nat>, telefone: Option<string>,
                             p: Pedido, passo: Passo)
    requires passo.tipo == "arquivo" && passo.mediaUrl.None?
    ensures Step(env, w, dirname, client, telefone, p, passo) == (w, Fail(WhatsApp.PathTypeError))
  {
  }

  /** Without a client, the first step that would send throws 'not started' and ends the run
      with nothing recorded for it. */
  lemma NoClientStops(env: Env, w: World, dirname: string, telefone: Option<string>, p: Pedido, passo: Passo)
    requires StepAction(dirname, telefone, passo, Personalizar(passo.conteudo, p, env.f)).Ask?
    ensures Step(env, w, dirname, None, telefone, p, passo) == (w, Fail(WhatsApp.NotStarted))
  {
    assert w.(events := w.events + []) == w;
  }

  /** Running two lists of steps one after the other is running their concatenation; in
      particular nothing after a throwing step runs. */
  lemma {:induction false} RunAppend(st: (World, Passo) -> (World, Outcome), w: World, s: seq<Passo>, t: seq<Passo>)
    ensures Run(st, w, s + t) == if Run(st, w, s).1.Fail? then Run(st, w, s) else Run(st, Run(st, w, s).0, t)
    decreases |s|
  {
    if s == [] {
      assert s + t == t;
    } else {
      assert (s + t)[0] == s[0] && (s + t)[1..] == s[1..] + t;
      if st(w, s[0]).1.Pass? {
        RunAppend(st, st(w, s[0]).0, s[1..], t);
      }
    }
  }
}
