/** The order store (`pedidoService`): dynamic partial updates, message history, the unread
    counter, order creation and lookup by phone. Each service call issues one SQL statement
    (two for `addMensagemHistorico`); a statement's effect on the table is a pure function
    of the table, and the methods apply it to the `Database`. */
module Pedidos {
  import opened Util
  import opened Db
  import Phones = Telefone
  import WhatsApp

  // ---- The dynamic UPDATE of updateCamposPedido ----

  /** One property of the `campos` object; `value == None` is `undefined`. */
  datatype Campo = Campo(key: Column, value: Option<Value>)

  /** The properties of a JavaScript object have distinct keys. */
  predicate DistinctKeys(campos: seq<Campo>)
  {
    forall i, j :: 0 <= i < j < |campos| ==> campos[i].key != campos[j].key
  }

  /** `Object.keys(campos).filter(key => campos[key] !== undefined)` with the values attached. */
  function Kept(campos: seq<Campo>): (r: seq<(Column, Value)>)
    ensures |r| <= |campos|
    ensures forall k, v :: (k, v) in r <==> Campo(k, Some(v)) in campos
    ensures r == [] <==> forall j :: 0 <= j < |campos| ==> campos[j].value.None?
  {
    if campos == [] then []
    else
      var rest := Kept(campos[1..]);
      assert forall c :: c in campos <==> c == campos[0] || c in campos[1..];
      if campos[0].value.Some? then [(campos[0].key, campos[0].value.value)] + rest else rest
  }

  /** `q(c)`: identifiers are double-quoted on PostgreSQL and bare on SQLite. */
  function Quote(c: string, postgres: bool): string
  {
    if postgres then "\"" + c + "\"" else c
  }

  /** The SET clause: one `key = ?` per kept key, in order, joined by ', '. */
  function SetClause(keys: seq<Column>, postgres: bool): string
  {
    Join(seq(|keys|, i requires 0 <= i < |keys| => Quote(ColumnName(keys[i]), postgres) + " = ?"), ", ")
  }

  /** The statement text, ending with the tenant filter when a tenant is given. */
  function UpdateSql(keys: seq<Column>, clienteId: Option<int>, postgres: bool): string
  {
    "UPDATE pedidos SET " + SetClause(keys, postgres) + " WHERE id = ?"
    + (if clienteId.Some? then " AND cliente_id = ?" else "")
  }

  /** The bound values: the kept values in order, then the order id, then the tenant when given. */
  function Replacements(kept: seq<(Column, Value)>, pedidoId: int, clienteId: Option<int>): (r: seq<Value>)
    ensures |r| == |kept| + 1 + (if clienteId.Some? then 1 else 0)
    ensures forall i :: 0 <= i < |kept| ==> r[i] == kept[i].1
    ensures r[|kept|] == Int(pedidoId)
    ensures clienteId.Some? ==> r[|kept| + 1] == Int(clienteId.value)
  {
    seq(|kept|, i requires 0 <= i < |kept| => kept[i].1) + [Int(pedidoId)]
    + (if clienteId.Some? then [Int(clienteId.value)] else [])
  }

  function Keys(kept: seq<(Column, Value)>): (r: seq<Column>)
    ensures |r| == |kept| && forall i :: 0 <= i < |kept| ==> r[i] == kept[i].0
  {
    seq(|kept|, i requires 0 <= i < |kept| => kept[i].0)
  }

  /** The number of occurrences of `c` in `s`. */
  function CountChar(s: string, c: char): nat
  {
    if s == [] then 0 else (if s[0] == c then 1 else 0) + CountChar(s[1..], c)
  }

  lemma {:induction false} CountCharAppend(a: string, b: string, c: char)
    ensures CountChar(a + b, c) == CountChar(a, c) + CountChar(b, c)
  {
    if a != [] {
      assert (a + b)[1..] == a[1..] + b;
      CountCharAppend(a[1..], b, c);
    } else {
      assert a + b == b;
    }
  }

  lemma {:induction false} CountCharAbsent(s: string, c: char)
    requires c !in s
    ensures CountChar(s, c) == 0
  {
    if s != [] {
      CountCharAbsent(s[1..], c);
    }
  }

  /** Joining parts that hold `c` once each, with a separator free of `c`, gives one `c` per part. */
  lemma {:induction false} CountCharJoin(parts: seq<string>, sep: string, c: char)
    requires c !in sep
    requires forall i :: 0 <= i < |parts| ==> CountChar(parts[i], c) == 1
    ensures CountChar(Join(parts, sep), c) == |parts|
  {
    if |parts| > 1 {
      assert forall i :: 0 <= i < |parts[1..]| ==> parts[1..][i] == parts[i + 1];
      CountCharJoin(parts[1..], sep, c);
      CountCharAppend(parts[0] + sep, Join(parts[1..], sep), c);
      CountCharAppend(parts[0], sep, c);
      CountCharAbsent(sep, c);
    }
  }

  lemma NamesHaveNoPlaceholder(c: Column)
    ensures '?' !in ColumnName(c)
  {
    match c
    case Nome | Email | Telefone | Produto | CodigoRastreio | DataPostagem => NoPlaceholderA(c);
    case StatusInterno | UltimaAtualizacao | UltimaLocalizacao | OrigemUltimaMovimentacao => NoPlaceholderB(c);
    case DestinoUltimaMovimentacao | DescricaoUltimoEvento | MensagemUltimoStatus | Notas => NoPlaceholderC(c);
    case FotoPerfilUrl | UltimaMensagem | MensagensNaoLidas | CheckCount | AlertSent => NoPlaceholderD(c);
    case DataCriacao | DataUltimaMensagem | LastCheckedAt | StatusChangeAt => NoPlaceholderE(c);
  }

  lemma NoPlaceholderA(c: Column)
    requires c.Nome? || c.Email? || c.Telefone? || c.Produto? || c.CodigoRastreio? || c.DataPostagem?
    ensures '?' !in ColumnName(c)
  {
  }

  lemma NoPlaceholderB(c: Column)
    requires c.StatusInterno? || c.UltimaAtualizacao? || c.UltimaLocalizacao? || c.OrigemUltimaMovimentacao?
    ensures '?' !in ColumnName(c)
  {
  }

  lemma NoPlaceholderC(c: Column)
    requires c.DestinoUltimaMovimentacao? || c.DescricaoUltimoEvento? || c.MensagemUltimoStatus? || c.Notas?
    ensures '?' !in ColumnName(c)
  {
  }

  lemma NoPlaceholderD(c: Column)
    requires c.FotoPerfilUrl? || c.UltimaMensagem? || c.MensagensNaoLidas? || c.CheckCount? || c.AlertSent?
    ensures '?' !in ColumnName(c)
  {
  }

  lemma NoPlaceholderE(c: Column)
    requires c.DataCriacao? || c.DataUltimaMensagem? || c.LastCheckedAt? || c.StatusChangeAt?
    ensures '?' !in ColumnName(c)
  {
  }

  /** A text whose only placeholder is its last character. */
  predicate EndsWithOnePlaceholder(s: string)
  {
    |s| > 0 && s[|s| - 1] == '?' && '?' !in s[..|s| - 1]
  }

  lemma OnePlaceholder(s: string)
    requires EndsWithOnePlaceholder(s)
    ensures CountChar(s, '?') == 1
  {
    var init := s[..|s| - 1];
    assert s == init + [s[|s| - 1]];
    CountCharAppend(init, [s[|s| - 1]], '?');
    CountCharAbsent(init, '?');
  }

  /** One `key = ?` item holds one placeholder. */
  lemma ItemPlaceholder(c: Column, postgres: bool, eq: string)
    requires EndsWithOnePlaceholder(eq)
    ensures CountChar(Quote(ColumnName(c), postgres) + eq, '?') == 1
  {
    NamesHaveNoPlaceholder(c);
    CountCharAbsent(Quote(ColumnName(c), postgres), '?');
    CountCharAppend(Quote(ColumnName(c), postgres), eq, '?');
    OnePlaceholder(eq);
  }

  /** The SET clause holds one placeholder per key. */
  lemma SetClausePlaceholders(keys: seq<Column>, postgres: bool)
    ensures CountChar(SetClause(keys, postgres), '?') == |keys|
  {
    var parts := seq(|keys|, i requires 0 <= i < |keys| => Quote(ColumnName(keys[i]), postgres) + " = ?");
    forall i | 0 <= i < |parts| ensures CountChar(parts[i], '?') == 1 {
      ItemPlaceholder(keys[i], postgres, " = ?");
    }
    CountCharJoin(parts, ", ", '?');
  }

  /** The statement has exactly one placeholder per bound value, so the i-th value binds the
      i-th placeholder: the kept keys' values, then `id`, then `cliente_id`. */
  lemma PlaceholdersMatchReplacements(kept: seq<(Column, Value)>, pedidoId: int, clienteId: Option<int>, postgres: bool)
    ensures CountChar(UpdateSql(Keys(kept), clienteId, postgres), '?') == |Replacements(kept, pedidoId, clienteId)|
  {
    var clause := SetClause(Keys(kept), postgres);
    SetClausePlaceholders(Keys(kept), postgres);
    SqlPlaceholders(clause, clienteId.Some?, "UPDATE pedidos SET ", " WHERE id = ?", " AND cliente_id = ?");
  }

  lemma SqlPlaceholders(clause: string, tenant: bool, head: string, whereId: string, whereTenant: string)
    requires '?' !in head && EndsWithOnePlaceholder(whereId) && EndsWithOnePlaceholder(whereTenant)
    ensures CountChar(head + clause + whereId + (if tenant then whereTenant else ""), '?')
         == CountChar(clause, '?') + 1 + (if tenant then 1 else 0)
  {
    var tail := if tenant then whereTenant else "";
    CountCharAppend(head + clause + whereId, tail, '?');
    CountCharAppend(head + clause, whereId, '?');
    CountCharAppend(head, clause, '?');
    CountCharAbsent(head, '?');
    OnePlaceholder(whereId);
    OnePlaceholder(whereTenant);
  }

  // ---- Row semantics ----

  /** The WHERE clause `id = ? [AND cliente_id = ?]`; a NULL `cliente_id` never equals a tenant. */
  predicate Matches(p: Pedido, pedidoId: int, clienteId: Option<int>)
  {
    p.id == pedidoId && (clienteId.None? || p.clienteId == clienteId)
  }

  /** Assignments name distinct columns. */
  predicate DistinctColumns(kept: seq<(Column, Value)>)
  {
    forall i, j :: 0 <= i < j < |kept| ==> kept[i].0 != kept[j].0
  }

  /** The SET assignments applied to one row. */
  function Assign(p: Pedido, kept: seq<(Column, Value)>): (r: Pedido)
    ensures r.id == p.id && r.clienteId == p.clienteId
    decreases |kept|
  {
    if kept == [] then p else Assign(p.(cols := p.cols[kept[0].0 := kept[0].1]), kept[1..])
  }

  /** The effect of an UPDATE: the matching rows are rewritten by `f`, the others are kept. */
  function Rewrite(ps: seq<Pedido>, pedidoId: int, clienteId: Option<int>, f: Pedido -> Pedido): (r: seq<Pedido>)
    ensures |r| == |ps|
    ensures forall i :: 0 <= i < |ps| ==> r[i] == if Matches(ps[i], pedidoId, clienteId) then f(ps[i]) else ps[i]
  {
    seq(|ps|, i requires 0 <= i < |ps| => if Matches(ps[i], pedidoId, clienteId) then f(ps[i]) else ps[i])
  }

  /** The number of rows an UPDATE of `pedidoId` matches. */
  function CountMatches(ps: seq<Pedido>, pedidoId: int, clienteId: Option<int>): nat
  {
    if ps == [] then 0
    else (if Matches(ps[0], pedidoId, clienteId) then 1 else 0) + CountMatches(ps[1..], pedidoId, clienteId)
  }

  const NotNullTelefone := "NOT NULL constraint failed: pedidos.telefone"
  const UniqueTelefone := "UNIQUE constraint failed: pedidos.cliente_id, pedidos.telefone"

  /** Every assignment has a value of its column's kind. */
  predicate TypedAssignments(kept: seq<(Column, Value)>)
  {
    forall i :: 0 <= i < |kept| ==> Fits(kept[i].0, kept[i].1)
  }

  /** The settled UPDATE: it rejects on a storage failure, a NULL phone or a duplicate
      (tenant, phone); otherwise it succeeds with the number of rows it matched and the
      rewritten table. On rejection the table is the old one. */
  function UpdateStatement(ps: seq<Pedido>, pedidoId: int, clienteId: Option<int>,
                           kept: seq<(Column, Value)>, fails: bool): (Result<nat>, seq<Pedido>)
  {
    var rows := Rewrite(ps, pedidoId, clienteId, p => Assign(p, kept));
    if fails then (Err(StorageError), ps)
    else if (Telefone, Null) in kept && exists i :: 0 <= i < |ps| && Matches(ps[i], pedidoId, clienteId) then
      (Err(NotNullTelefone), ps)
    else if !UniquePhonePerTenant(rows) then (Err(UniqueTelefone), ps)
    else (Ok(CountMatches(ps, pedidoId, clienteId)), rows)
  }

  /** `updateCamposPedido(db, pedidoId, campos, clienteId)` at the level of the table: with no
      defined value nothing is executed and no row is matched; otherwise the dynamic UPDATE runs. */
  function UpdateCampos(ps: seq<Pedido>, pedidoId: int, campos: seq<Campo>, clienteId: Option<int>, fails: bool): (Result<nat>, seq<Pedido>)
  {
    var kept := Kept(campos);
    if kept == [] then (Ok(0), ps) else UpdateStatement(ps, pedidoId, clienteId, kept, fails)
  }

  // ---- Properties of the UPDATE ----

  /** An assigned column takes its value; any other column keeps its old one. */
  lemma {:induction false} AssignCols(p: Pedido, kept: seq<(Column, Value)>, c: Column)
    requires DistinctColumns(kept)
    ensures forall v :: (c, v) in kept ==> Get(Assign(p, kept), c) == v
    ensures (forall v :: (c, v) !in kept) ==> Get(Assign(p, kept), c) == Get(p, c)
    decreases |kept|
  {
    if kept != [] {
      var p1 := p.(cols := p.cols[kept[0].0 := kept[0].1]);
      var rest := kept[1..];
      assert DistinctColumns(rest) by {
        forall i, j | 0 <= i < j < |rest| ensures rest[i].0 != rest[j].0 {
          assert rest[i] == kept[i + 1] && rest[j] == kept[j + 1];
        }
      }
      AssignCols(p1, rest, c);
      assert forall x :: x in kept <==> x == kept[0] || x in rest;
      if kept[0].0 == c {
        forall j | 0 <= j < |rest| ensures rest[j].0 != c {
          assert rest[j] == kept[j + 1];
        }
      }
    }
  }

  lemma {:induction false} KeptDistinct(campos: seq<Campo>)
    requires DistinctKeys(campos)
    ensures DistinctColumns(Kept(campos))
  {
    if campos != [] {
      var tail := campos[1..];
      TailDistinctKeys(campos);
      KeptDistinct(tail);
      var rest := Kept(tail);
      KeptAvoidsHead(campos);
      if campos[0].value.Some? {
        var r := Kept(campos);
        assert r == [(campos[0].key, campos[0].value.value)] + rest;
        forall i, j | 0 <= i < j < |r| ensures r[i].0 != r[j].0 {
          if i > 0 { assert r[i] == rest[i - 1]; }
          assert r[j] == rest[j - 1];
        }
      }
    }
  }

  lemma TailDistinctKeys(campos: seq<Campo>)
    requires campos != [] && DistinctKeys(campos)
    ensures DistinctKeys(campos[1..])
  {
    var tail := campos[1..];
    forall i, j | 0 <= i < j < |tail| ensures tail[i].key != tail[j].key {
      assert tail[i] == campos[i + 1] && tail[j] == campos[j + 1];
    }
  }

  /** No key kept from the tail is the head's key. */
  lemma KeptAvoidsHead(campos: seq<Campo>)
    requires campos != [] && DistinctKeys(campos)
    ensures forall i :: 0 <= i < |Kept(campos[1..])| ==> Kept(campos[1..])[i].0 != campos[0].key
  {
    var tail := campos[1..];
    var rest := Kept(tail);
    forall i | 0 <= i < |rest| ensures rest[i].0 != campos[0].key {
      assert rest[i] in rest;
      var j :| 0 <= j < |tail| && tail[j] == Campo(rest[i].0, Some(rest[i].1));
      assert campos[j + 1] == tail[j];
    }
  }

  /** With no defined value the call resolves with 0 changes and the table is untouched. */
  lemma UpdateNothingDefined(ps: seq<Pedido>, pedidoId: int, campos: seq<Campo>, clienteId: Option<int>, fails: bool)
    requires forall j :: 0 <= j < |campos| ==> campos[j].value.None?
    ensures UpdateCampos(ps, pedidoId, campos, clienteId, fails) == (Ok(0), ps)
  {
  }

  /** A rejected update leaves the table as it was. */
  lemma UpdateRejectedUnchanged(ps: seq<Pedido>, pedidoId: int, campos: seq<Campo>, clienteId: Option<int>, fails: bool)
    requires UpdateCampos(ps, pedidoId, campos, clienteId, fails).0.Err?
    ensures UpdateCampos(ps, pedidoId, campos, clienteId, fails).1 == ps
  {
  }

  /** On success exactly the defined fields of the matched row change, to the given values
      (NULL included); every other column, every other row and every key stay as they were. */
  lemma UpdateOnlyNamedFields(ps: seq<Pedido>, pedidoId: int, campos: seq<Campo>, clienteId: Option<int>, fails: bool, i: int, c: Column)
    requires DistinctKeys(campos)
    requires 0 <= i < |ps|
    requires UpdateCampos(ps, pedidoId, campos, clienteId, fails).0.Ok?
    ensures var rows := UpdateCampos(ps, pedidoId, campos, clienteId, fails).1;
      && |rows| == |ps| && rows[i].id == ps[i].id && rows[i].clienteId == ps[i].clienteId
      && (!Matches(ps[i], pedidoId, clienteId) ==> rows[i] == ps[i])
      && (Matches(ps[i], pedidoId, clienteId) ==>
            forall v :: Campo(c, Some(v)) in campos ==> Get(rows[i], c) == v)
      && ((forall v :: Campo(c, Some(v)) !in campos) ==> Get(rows[i], c) == Get(ps[i], c))
  {
    var kept := Kept(campos);
    if kept != [] {
      KeptDistinct(campos);
      AssignCols(ps[i], kept, c);
    }
  }

  /** Row ids are unique, so an update of one id changes at most one row, and exactly one
      when a row matches. */
  lemma {:induction false} AtMostOneMatch(ps: seq<Pedido>, pedidoId: int, clienteId: Option<int>)
    requires IncreasingIds(ps)
    ensures CountMatches(ps, pedidoId, clienteId) <= 1
    ensures CountMatches(ps, pedidoId, clienteId) == 1 <==>
      exists i :: 0 <= i < |ps| && Matches(ps[i], pedidoId, clienteId)
  {
    if ps != [] {
      var rest := ps[1..];
      assert IncreasingIds(rest) by {
        forall i, j | 0 <= i < j < |rest| ensures rest[i].id < rest[j].id {
          assert rest[i] == ps[i + 1] && rest[j] == ps[j + 1];
        }
      }
      AtMostOneMatch(rest, pedidoId, clienteId);
      if Matches(ps[0], pedidoId, clienteId) {
        forall i | 0 <= i < |rest| ensures !Matches(rest[i], pedidoId, clienteId) {
          assert rest[i] == ps[i + 1];
        }
      }
      if exists i :: 0 <= i < |ps| && Matches(ps[i], pedidoId, clienteId) {
        var i :| 0 <= i < |ps| && Matches(ps[i], pedidoId, clienteId);
        if i > 0 { assert rest[i - 1] == ps[i]; }
      }
      if exists i :: 0 <= i < |rest| && Matches(rest[i], pedidoId, clienteId) {
        var i :| 0 <= i < |rest| && Matches(rest[i], pedidoId, clienteId);
        assert ps[i + 1] == rest[i];
      }
    }
  }

  lemma {:induction false} AssignWellTyped(p: Pedido, kept: seq<(Column, Value)>)
    requires WellTyped(p) && TypedAssignments(kept)
    requires (Telefone, Null) !in kept
    ensures WellTyped(Assign(p, kept))
    decreases |kept|
  {
    if kept != [] {
      var p1 := p.(cols := p.cols[kept[0].0 := kept[0].1]);
      assert kept[0] in kept;
      assert WellTyped(p1);
      var rest := kept[1..];
      assert forall i :: 0 <= i < |rest| ==> rest[i] == kept[i + 1];
      assert forall x :: x in rest ==> x in kept;
      AssignWellTyped(p1, rest);
    }
  }

  /** A successful update keeps the table's invariants. */
  lemma UpdateStatementValid(ps: seq<Pedido>, pedidoId: int, clienteId: Option<int>, kept: seq<(Column, Value)>, fails: bool, next: int)
    requires IncreasingIds(ps) && UniquePhonePerTenant(ps)
    requires forall i :: 0 <= i < |ps| ==> ps[i].id < next && WellTyped(ps[i])
    requires TypedAssignments(kept)
    ensures var rows := UpdateStatement(ps, pedidoId, clienteId, kept, fails).1;
      && IncreasingIds(rows) && UniquePhonePerTenant(rows) && |rows| == |ps|
      && forall i :: 0 <= i < |rows| ==> rows[i].id == ps[i].id && rows[i].id < next && WellTyped(rows[i])
  {
    var (r, rows) := UpdateStatement(ps, pedidoId, clienteId, kept, fails);
    if r.Ok? {
      forall i | 0 <= i < |rows| ensures WellTyped(rows[i]) {
        if Matches(ps[i], pedidoId, clienteId) {
          AssignWellTyped(ps[i], kept);
        }
      }
    }
  }

  // ---- Row counters ----

  /** `mensagensNaoLidas = mensagensNaoLidas + 1`: SQL arithmetic on NULL stays NULL. */
  function BumpUnread(p: Pedido): (r: Pedido)
    ensures r.id == p.id && r.clienteId == p.clienteId
    ensures forall c :: c != MensagensNaoLidas ==> Get(r, c) == Get(p, c)
    ensures Get(p, MensagensNaoLidas).Int? ==> Get(r, MensagensNaoLidas) == Int(Get(p, MensagensNaoLidas).i + 1)
    ensures Get(p, MensagensNaoLidas).Null? ==> Get(r, MensagensNaoLidas) == Null
  {
    match Get(p, MensagensNaoLidas)
    case Int(n) => p.(cols := p.cols[MensagensNaoLidas := Int(n + 1)])
    case _ => p
  }

  /** `mensagensNaoLidas = 0`. */
  function ClearUnread(p: Pedido): (r: Pedido)
    ensures r.id == p.id && r.clienteId == p.clienteId
    ensures forall c :: c != MensagensNaoLidas ==> Get(r, c) == Get(p, c)
    ensures Get(r, MensagensNaoLidas) == Int(0)
  {
    p.(cols := p.cols[MensagensNaoLidas := Int(0)])
  }

  /** Rewriting the matched rows with a function that keeps each row's id, tenant, phone
      and column types keeps the table's keys, unique index and types. */
  lemma RewriteKeepsRows(ps: seq<Pedido>, pedidoId: int, clienteId: Option<int>, f: Pedido -> Pedido, next: int)
    requires IncreasingIds(ps) && UniquePhonePerTenant(ps)
    requires forall i :: 0 <= i < |ps| ==> ps[i].id < next && WellTyped(ps[i])
    requires forall i :: 0 <= i < |ps| ==> f(ps[i]).id == ps[i].id && f(ps[i]).clienteId == ps[i].clienteId
    requires forall i :: 0 <= i < |ps| ==> Get(f(ps[i]), Telefone) == Get(ps[i], Telefone) && WellTyped(f(ps[i]))
    ensures var rows := Rewrite(ps, pedidoId, clienteId, f);
      && IncreasingIds(rows) && UniquePhonePerTenant(rows)
      && forall i :: 0 <= i < |rows| ==> rows[i].id < next && WellTyped(rows[i])
  {
    var rows := Rewrite(ps, pedidoId, clienteId, f);
    assert forall i :: 0 <= i < |rows| ==>
      rows[i].id == ps[i].id && rows[i].clienteId == ps[i].clienteId && Get(rows[i], Telefone) == Get(ps[i], Telefone);
  }

  lemma BumpUnreadKeepsRows(ps: seq<Pedido>, pedidoId: int, clienteId: Option<int>, next: int)
    requires IncreasingIds(ps) && UniquePhonePerTenant(ps)
    requires forall i :: 0 <= i < |ps| ==> ps[i].id < next && WellTyped(ps[i])
    ensures var rows := Rewrite(ps, pedidoId, clienteId, BumpUnread);
      && IncreasingIds(rows) && UniquePhonePerTenant(rows)
      && forall i :: 0 <= i < |rows| ==> rows[i].id < next && WellTyped(rows[i])
  {
    forall i | 0 <= i < |ps| ensures WellTyped(BumpUnread(ps[i])) {
      assert WellTyped(ps[i]);
    }
    RewriteKeepsRows(ps, pedidoId, clienteId, BumpUnread, next);
  }

  lemma ClearUnreadKeepsRows(ps: seq<Pedido>, pedidoId: int, clienteId: Option<int>, next: int)
    requires IncreasingIds(ps) && UniquePhonePerTenant(ps)
    requires forall i :: 0 <= i < |ps| ==> ps[i].id < next && WellTyped(ps[i])
    ensures var rows := Rewrite(ps, pedidoId, clienteId, ClearUnread);
      && IncreasingIds(rows) && UniquePhonePerTenant(rows)
      && forall i :: 0 <= i < |rows| ==> rows[i].id < next && WellTyped(rows[i])
  {
    forall i | 0 <= i < |ps| ensures WellTyped(ClearUnread(ps[i])) {
      assert WellTyped(ps[i]);
    }
    RewriteKeepsRows(ps, pedidoId, clienteId, ClearUnread, next);
  }

  // ---- Lookups ----

  /** `getAllPedidos`: the tenant's rows (all rows for no tenant), `ORDER BY id DESC`. */
  function AllPedidos(ps: seq<Pedido>, clienteId: Option<int>): (r: seq<Pedido>)
    ensures |r| <= |ps|
    ensures forall p :: p in r <==> p in ps && (clienteId.None? || p.clienteId == clienteId)
  {
    if ps == [] then []
    else AllPedidos(ps[1..], clienteId) + (if clienteId.None? || ps[0].clienteId == clienteId then [ps[0]] else [])
  }

  lemma IncreasingTail(ps: seq<Pedido>)
    requires ps != [] && IncreasingIds(ps)
    ensures IncreasingIds(ps[1..])
  {
    var tail := ps[1..];
    forall i, j | 0 <= i < j < |tail| ensures tail[i].id < tail[j].id {
      assert tail[i] == ps[i + 1] && tail[j] == ps[j + 1];
    }
  }

  /** Every listed row comes after the first row of the table. */
  lemma ListedAfterHead(ps: seq<Pedido>, clienteId: Option<int>)
    requires ps != [] && IncreasingIds(ps)
    ensures forall p :: p in AllPedidos(ps[1..], clienteId) ==> p.id > ps[0].id
  {
    forall p | p in AllPedidos(ps[1..], clienteId) ensures p.id > ps[0].id {
      var j :| 0 <= j < |ps[1..]| && ps[1..][j] == p;
      assert ps[j + 1] == p;
    }
  }

  predicate DecreasingIds(ps: seq<Pedido>)
  {
    forall i, j :: 0 <= i < j < |ps| ==> ps[i].id > ps[j].id
  }

  /** The listing is in decreasing id order. */
  lemma {:induction false} AllPedidosDescending(ps: seq<Pedido>, clienteId: Option<int>)
    requires IncreasingIds(ps)
    ensures DecreasingIds(AllPedidos(ps, clienteId))
  {
    if ps != [] {
      IncreasingTail(ps);
      AllPedidosDescending(ps[1..], clienteId);
      ListedAfterHead(ps, clienteId);
      var rest := AllPedidos(ps[1..], clienteId);
      var r := AllPedidos(ps, clienteId);
      assert r == rest + (if clienteId.None? || ps[0].clienteId == clienteId then [ps[0]] else []);
      forall i, j | 0 <= i < j < |r| ensures r[i].id > r[j].id {
        assert r[i] == rest[i];
        if j < |rest| {
          assert r[j] == rest[j];
          assert rest[i].id > rest[j].id;
        } else {
          assert r[j] == ps[0];
          assert rest[i] in rest;
          assert rest[i].id > ps[0].id;
        }
      }
    }
  }

  /** The first row with this phone (within the tenant when one is given). */
  function FirstWithPhone(ps: seq<Pedido>, telefone: string, clienteId: Option<int>): (r: Option<Pedido>)
    ensures r.Some? ==>
      r.value in ps && Get(r.value, Telefone) == Str(telefone) && (clienteId.None? || r.value.clienteId == clienteId)
    ensures r.None? ==> forall p :: p in ps ==> Get(p, Telefone) != Str(telefone) || (clienteId.Some? && p.clienteId != clienteId)
  {
    if ps == [] then None
    else if Get(ps[0], Telefone) == Str(telefone) && (clienteId.None? || ps[0].clienteId == clienteId) then Some(ps[0])
    else FirstWithPhone(ps[1..], telefone, clienteId)
  }

  /** `findPedidoByTelefone`: `null` for a phone that does not normalise, otherwise the
      row with the normalised phone. */
  function FindByTelefone(ps: seq<Pedido>, telefone: Option<string>, clienteId: Option<int>): (r: Option<Pedido>)
    ensures Phones.Normalize(telefone).None? ==> r.None?
  {
    match Phones.Normalize(telefone)
    case None => None
    case Some(t) => FirstWithPhone(ps, t, clienteId)
  }

  /** Within a tenant the unique index makes the match the only row with that phone, and
      every spelling of the same number finds it. */
  lemma FindByTelefoneUnique(ps: seq<Pedido>, telefone: Option<string>, tenant: int, i: int)
    requires UniquePhonePerTenant(ps)
    requires 0 <= i < |ps| && ps[i].clienteId == Some(tenant)
    requires Phones.Normalize(telefone).Some? && Get(ps[i], Telefone) == Str(Phones.Normalize(telefone).value)
    ensures FindByTelefone(ps, telefone, Some(tenant)) == Some(ps[i])
  {
    var t := Phones.Normalize(telefone).value;
    FirstUnique(ps, t, tenant, i);
  }

  lemma {:induction false} FirstUnique(ps: seq<Pedido>, t: string, tenant: int, i: int)
    requires UniquePhonePerTenant(ps)
    requires 0 <= i < |ps| && ps[i].clienteId == Some(tenant) && Get(ps[i], Telefone) == Str(t)
    ensures FirstWithPhone(ps, t, Some(tenant)) == Some(ps[i])
  {
    if i > 0 {
      assert !(Get(ps[0], Telefone) == Str(t) && ps[0].clienteId == Some(tenant));
      assert UniquePhonePerTenant(ps[1..]) by {
        forall a, b | 0 <= a < b < |ps[1..]|
          ensures ps[1..][a].clienteId.None? || ps[1..][a].clienteId != ps[1..][b].clienteId
               || Get(ps[1..][a], Telefone) != Get(ps[1..][b], Telefone)
        {
          assert ps[1..][a] == ps[a + 1] && ps[1..][b] == ps[b + 1];
        }
      }
      assert ps[1..][i - 1] == ps[i];
      FirstUnique(ps[1..], t, tenant, i - 1);
    }
  }

  // ---- Order creation ----

  /** The fields `criarPedido` reads from `dadosPedido`. */
  datatype NovoPedido = NovoPedido(
    nome: Option<string>, telefone: Option<string>, email: Option<string>,
    produto: Option<string>, codigoRastreio: Option<string>, notas: Option<string>)

  const InvalidOrder := "Nome e um número de celular válido são obrigatórios."

  function NullableStr(o: Option<string>): (v: Value)
    ensures o.Some? <==> v.Str?
    ensures o.Some? ==> v == Str(o.value)
  {
    if o.Some? then Str(o.value) else Null
  }

  /** The inserted row: normalised phone, `x || null` for the optional texts, the avatar
      `getProfilePicUrl()` returns when called without client, zero counters and no checks yet. */
  function NewRow(id: int, clienteId: Option<int>, d: NovoPedido, telefone: string, now: int): (p: Pedido)
    requires Truthy(d.nome)
  {
    Pedido(id, clienteId, NewCols(d, telefone, now))
  }

  /** The columns the INSERT sets; every other column starts NULL. */
  function NewCols(d: NovoPedido, telefone: string, now: int): map<Column, Value>
    requires Truthy(d.nome)
  {
    map[
      Nome := Str(d.nome.value),
      Email := NullableStr(OrNull(d.email)),
      Telefone := Str(telefone),
      Produto := NullableStr(OrNull(d.produto)),
      CodigoRastreio := NullableStr(OrNull(d.codigoRastreio)),
      Notas := NullableStr(OrNull(d.notas)),
      FotoPerfilUrl := Str(WhatsApp.DefaultAvatarUrl),
      DataCriacao := Time(now),
      LastCheckedAt := Null,
      StatusChangeAt := Null,
      CheckCount := Int(0),
      AlertSent := Int(0),
      MensagensNaoLidas := Int(0)]
  }

  lemma NewRowWellTyped(id: int, clienteId: Option<int>, d: NovoPedido, telefone: string, now: int)
    requires Truthy(d.nome)
    ensures WellTyped(NewRow(id, clienteId, d, telefone, now))
  {
    NewColsFit(d, telefone, now);
    FittingRowWellTyped(NewRow(id, clienteId, d, telefone, now));
  }

  /** The new row's columns, assigned one at a time, each fit its column. */
  /** Each column the INSERT sets gets a value of its kind, or NULL. */
  lemma NewColsFit(d: NovoPedido, telefone: string, now: int)
    requires Truthy(d.nome)
    ensures AllFit(NewCols(d, telefone, now)) && NewCols(d, telefone, now)[Telefone] == Str(telefone)
  {
    var m := NewCols(d, telefone, now);
    forall k | k in m ensures Fits(k, m[k]) {
      match k
      case Nome | Telefone | FotoPerfilUrl =>
      case Email | Produto | CodigoRastreio | Notas =>
      case DataCriacao =>
      case LastCheckedAt | StatusChangeAt =>
      case CheckCount | AlertSent | MensagensNaoLidas =>
    }
  }

  lemma FittingRowWellTyped(p: Pedido)
    requires AllFit(p.cols) && Get(p, Telefone).Str?
    ensures WellTyped(p)
  {
  }

  /** Every column of `m` holds a value of its kind, or NULL. */
  predicate AllFit(m: map<Column, Value>)
  {
    forall k :: k in m ==> Fits(k, m[k])
  }

  /** Some row of the tenant already has this phone; an order without a tenant (NULL
      `cliente_id`) never clashes under the unique index. */
  predicate PhoneTaken(ps: seq<Pedido>, clienteId: Option<int>, telefone: string)
  {
    clienteId.Some? && exists i :: 0 <= i < |ps| && ps[i].clienteId == clienteId && Get(ps[i], Telefone) == Str(telefone)
  }

  /** Orders created without a tenant may share a phone: the index never refuses them. */
  lemma UntenantedNeverTaken(ps: seq<Pedido>, telefone: string)
    ensures !PhoneTaken(ps, None, telefone)
  {
  }

  // ---- The service methods ----

  /** `getAllPedidos(db, clienteId)`. */
  method GetAllPedidos(db: Database, clienteId: Option<int>) returns (r: Result<seq<Pedido>>)
    ensures Pedidos in db.readFails ==> r == Err(StorageError)
    ensures Pedidos !in db.readFails ==> r == Ok(AllPedidos(db.pedidos, clienteId))
  {
    if Pedidos in db.readFails {
      return Err(StorageError);
    }
    return Ok(AllPedidos(db.pedidos, clienteId));
  }

  /** `findPedidoByTelefone(db, telefone, clienteId)`; the phone check comes before any read. */
  method FindPedidoByTelefone(db: Database, telefone: Option<string>, clienteId: Option<int>) returns (r: Result<Option<Pedido>>)
    ensures Phones.Normalize(telefone).None? ==> r == Ok(None)
    ensures Phones.Normalize(telefone).Some? && Pedidos in db.readFails ==> r == Err(StorageError)
    ensures Pedidos !in db.readFails ==> r == Ok(FindByTelefone(db.pedidos, telefone, clienteId))
  {
    var t := Phones.Normalize(telefone);
    if t.None? {
      return Ok(None);
    }
    if Pedidos in db.readFails {
      return Err(StorageError);
    }
    return Ok(FirstWithPhone(db.pedidos, t.value, clienteId));
  }

  /** What `updateCamposPedido` resolves with: the literal `{ changes: 0 }` when no value is
      defined, otherwise the statement's outcome with `changes` as the driver wrapper reports it. */
  function Resolution(postgres: bool, campos: seq<Campo>, res: Result<nat>): Result<Option<nat>>
  {
    if Kept(campos) == [] then Ok(Some(0)) else ReportedResult(postgres, res)
  }

  /** `updateCamposPedido(db, pedidoId, campos, clienteId)`. */
  method UpdateCamposPedido(db: Database, pedidoId: int, campos: seq<Campo>, clienteId: Option<int>) returns (r: Result<Option<nat>>)
    requires db.Valid()
    requires DistinctKeys(campos)
    requires forall i :: 0 <= i < |campos| && campos[i].value.Some? ==> Fits(campos[i].key, campos[i].value.value)
    modifies db`pedidos
    ensures db.Valid()
    ensures var (res, rows) := UpdateCampos(old(db.pedidos), pedidoId, campos, clienteId, Pedidos in db.writeFails);
      db.pedidos == rows && r == Resolution(db.postgres, campos, res)
  {
    var kept := Kept(campos);
    if kept == [] {
      return Ok(Some(0));
    }
    forall i | 0 <= i < |kept| ensures Fits(kept[i].0, kept[i].1) {
      assert kept[i] in kept;
      var j :| 0 <= j < |campos| && campos[j] == Campo(kept[i].0, Some(kept[i].1));
    }
    UpdateStatementValid(db.pedidos, pedidoId, clienteId, kept, Pedidos in db.writeFails, db.nextPedidoId);
    var (res, rows) := UpdateStatement(db.pedidos, pedidoId, clienteId, kept, Pedidos in db.writeFails);
    db.pedidos := rows;
    return ReportedResult(db.postgres, res);
  }

  /** `incrementarNaoLidas(db, pedidoId, clienteId)`. */
  method IncrementarNaoLidas(db: Database, pedidoId: int, clienteId: Option<int>) returns (r: Result<Option<nat>>)
    requires db.Valid()
    modifies db`pedidos
    ensures db.Valid()
    ensures Pedidos in db.writeFails ==> r == Err(StorageError) && db.pedidos == old(db.pedidos)
    ensures Pedidos !in db.writeFails ==>
      r == Ok(Reported(db.postgres, CountMatches(old(db.pedidos), pedidoId, clienteId)))
      && db.pedidos == Rewrite(old(db.pedidos), pedidoId, clienteId, BumpUnread)
  {
    if Pedidos in db.writeFails {
      return Err(StorageError);
    }
    var rows := Rewrite(db.pedidos, pedidoId, clienteId, BumpUnread);
    BumpUnreadKeepsRows(db.pedidos, pedidoId, clienteId, db.nextPedidoId);
    r := Ok(Reported(db.postgres, CountMatches(db.pedidos, pedidoId, clienteId)));
    db.SetPedidos(rows);
  }

  /** `marcarComoLido(db, pedidoId, clienteId)`. */
  method MarcarComoLido(db: Database, pedidoId: int, clienteId: Option<int>) returns (r: Result<Option<nat>>)
    requires db.Valid()
    modifies db`pedidos
    ensures db.Valid()
    ensures Pedidos in db.writeFails ==> r == Err(StorageError) && db.pedidos == old(db.pedidos)
    ensures Pedidos !in db.writeFails ==>
      r == Ok(Reported(db.postgres, CountMatches(old(db.pedidos), pedidoId, clienteId)))
      && db.pedidos == Rewrite(old(db.pedidos), pedidoId, clienteId, ClearUnread)
  {
    if Pedidos in db.writeFails {
      return Err(StorageError);
    }
    var rows := Rewrite(db.pedidos, pedidoId, clienteId, ClearUnread);
    ClearUnreadKeepsRows(db.pedidos, pedidoId, clienteId, db.nextPedidoId);
    r := Ok(Reported(db.postgres, CountMatches(db.pedidos, pedidoId, clienteId)));
    db.SetPedidos(rows);
  }

  /** `criarPedido(db, dadosPedido, client, clienteId)`: resolves with the new id as the
      wrapper's `lastID` gives it, undefined on Postgres since the INSERT has no `RETURNING id`. */
  method CriarPedido(db: Database, d: NovoPedido, clienteId: Option<int>, now: int) returns (r: Result<Option<int>>)
    requires db.Valid()
    modifies db`pedidos, db`nextPedidoId
    ensures db.Valid()
    ensures Phones.Normalize(d.telefone).None? || !Truthy(d.nome) ==>
      r == Err(InvalidOrder) && db.pedidos == old(db.pedidos)
    ensures r.Err? ==> db.pedidos == old(db.pedidos)
    ensures r.Ok? ==>
      && Phones.Normalize(d.telefone).Some? && Truthy(d.nome)
      && Pedidos !in db.writeFails
      && !PhoneTaken(old(db.pedidos), clienteId, Phones.Normalize(d.telefone).value)
      && r.value == InsertedId(db.postgres, old(db.nextPedidoId))
      && (r.value.Some? <==> !db.postgres)
      && db.pedidos == old(db.pedidos) + [NewRow(old(db.nextPedidoId), clienteId, d, Phones.Normalize(d.telefone).value, now)]
    ensures (Phones.Normalize(d.telefone).Some? && Truthy(d.nome) && Pedidos !in db.writeFails
      && !PhoneTaken(old(db.pedidos), clienteId, Phones.Normalize(d.telefone).value)) ==> r.Ok?
  {
    var t := Phones.Normalize(d.telefone);
    if t.None? || !Truthy(d.nome) {
      return Err(InvalidOrder);
    }
    if Pedidos in db.writeFails {
      return Err(StorageError);
    }
    if PhoneTaken(db.pedidos, clienteId, t.value) {
      return Err(UniqueTelefone);
    }
    var row := NewRow(db.nextPedidoId, clienteId, d, t.value, now);
    NewRowWellTyped(db.nextPedidoId, clienteId, d, t.value, now);
    db.pedidos := db.pedidos + [row];
    r := Ok(InsertedId(db.postgres, db.nextPedidoId));
    db.nextPedidoId := db.nextPedidoId + 1;
  }

  /** `addMensagemHistorico(...)`: the history row (message '' when null), then the order's
      last-message columns; a failure of that second statement is swallowed. The call resolves
      with the wrapper's `lastID`, undefined on Postgres since the INSERT has no `RETURNING id`. */
  method AddMensagemHistorico(db: Database, pedidoId: int, mensagem: Option<string>, tipoMensagem: string,
                              origem: string, clienteId: Option<int>, mediaUrl: Option<string>,
                              messageType: string, now: int) returns (r: Result<Option<int>>)
    requires db.Valid()
    modifies db`historico, db`nextHistoricoId, db`pedidos
    ensures db.Valid()
    ensures Historico in db.writeFails ==>
      && r == Err(StorageError) && db.historico == old(db.historico) && db.pedidos == old(db.pedidos)
      && db.nextHistoricoId == old(db.nextHistoricoId)
    ensures Historico !in db.writeFails ==>
      && r == Ok(InsertedId(db.postgres, old(db.nextHistoricoId))) && (r.value.Some? <==> !db.postgres)
      && db.nextHistoricoId == old(db.nextHistoricoId) + 1
      && db.historico == old(db.historico) + [HistoricoEntry(old(db.nextHistoricoId), pedidoId, clienteId,
           if mensagem.Some? then mensagem.value else "", tipoMensagem, origem, mediaUrl, messageType)]
      && db.pedidos == UpdateStatement(old(db.pedidos), pedidoId, clienteId, LastMessage(mensagem, now), Pedidos in db.writeFails).1
  {
    if Historico in db.writeFails {
      return Err(StorageError);
    }
    var entry := HistoricoEntry(db.nextHistoricoId, pedidoId, clienteId,
      if mensagem.Some? then mensagem.value else "", tipoMensagem, origem, mediaUrl, messageType);
    db.historico := db.historico + [entry];
    r := Ok(InsertedId(db.postgres, db.nextHistoricoId));
    db.nextHistoricoId := db.nextHistoricoId + 1;
    var kept := LastMessage(mensagem, now);
    UpdateStatementValid(db.pedidos, pedidoId, clienteId, kept, Pedidos in db.writeFails, db.nextPedidoId);
    var (_, rows) := UpdateStatement(db.pedidos, pedidoId, clienteId, kept, Pedidos in db.writeFails);
    db.pedidos := rows;
  }

  /** The assignments of the last-message update: the raw message (NULL when missing) and the instant. */
  function LastMessage(mensagem: Option<string>, now: int): (kept: seq<(Column, Value)>)
    ensures TypedAssignments(kept)
  {
    [(UltimaMensagem, NullableStr(mensagem)), (DataUltimaMensagem, Time(now))]
  }

  /** An update that assigns no phone cannot break the phone index: without a storage
      failure it succeeds, every row keeps its key and phone, and a matched row takes the
      assigned value of column `c` or keeps its old one. */
  lemma PhoneFreeUpdate(ps: seq<Pedido>, pedidoId: int, clienteId: Option<int>, kept: seq<(Column, Value)>, i: int, c: Column)
    requires UniquePhonePerTenant(ps) && DistinctColumns(kept)
    requires forall v :: (Telefone, v) !in kept
    requires 0 <= i < |ps|
    ensures var (r, rows) := UpdateStatement(ps, pedidoId, clienteId, kept, false);
      && r.Ok? && UniquePhonePerTenant(rows) && |rows| == |ps|
      && rows[i].id == ps[i].id && rows[i].clienteId == ps[i].clienteId
      && (!Matches(ps[i], pedidoId, clienteId) ==> rows[i] == ps[i])
      && (Matches(ps[i], pedidoId, clienteId) ==> forall v :: (c, v) in kept ==> Get(rows[i], c) == v)
      && ((forall v :: (c, v) !in kept) ==> Get(rows[i], c) == Get(ps[i], c))
  {
    var rows := Rewrite(ps, pedidoId, clienteId, p => Assign(p, kept));
    forall j | 0 <= j < |ps| ensures Get(rows[j], Telefone) == Get(ps[j], Telefone) {
      AssignCols(ps[j], kept, Telefone);
    }
    assert UniquePhonePerTenant(rows);
    AssignCols(ps[i], kept, c);
  }

  /** The last-message update always succeeds unless the storage rejects it: it changes no
      phone, so no constraint can fail; the matched row gets the message and the instant. */
  lemma LastMessageApplied(ps: seq<Pedido>, pedidoId: int, clienteId: Option<int>, mensagem: Option<string>, now: int, i: int)
    requires UniquePhonePerTenant(ps)
    requires 0 <= i < |ps|
    ensures var rows := UpdateStatement(ps, pedidoId, clienteId, LastMessage(mensagem, now), false).1;
      && (Matches(ps[i], pedidoId, clienteId) ==>
            Get(rows[i], UltimaMensagem) == NullableStr(mensagem) && Get(rows[i], DataUltimaMensagem) == Time(now))
      && (!Matches(ps[i], pedidoId, clienteId) ==> rows[i] == ps[i])
    ensures UpdateStatement(ps, pedidoId, clienteId, LastMessage(mensagem, now), false).0.Ok?
  {
    var kept := LastMessage(mensagem, now);
    var rows := Rewrite(ps, pedidoId, clienteId, p => Assign(p, kept));
    forall j | 0 <= j < |ps| ensures Get(rows[j], Telefone) == Get(ps[j], Telefone) {
      AssignCols(ps[j], kept, Telefone);
    }
    assert UniquePhonePerTenant(rows);
    AssignCols(ps[i], kept, UltimaMensagem);
    AssignCols(ps[i], kept, DataUltimaMensagem);
  }
}
