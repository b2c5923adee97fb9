/** The per-tenant automation settings (`automationService`): the rows of `automacoes`,
    keyed by (gatilho, cliente_id), merged with the compiled-in default messages. */
module Automations {
  import opened Util
  import opened Db
  import opened DefaultMessages

  /** One entry of the automations object: `{ ativo, mensagem }`. */
  datatype Config = Config(ativo: bool, mensagem: Option<string>)

  /** The entry a stored row becomes: `ativo: Boolean(row.ativo)`. */
  function Stored(row: AutomationRow): (c: Config)
    ensures c.ativo <==> row.ativo != 0
    ensures c.mensagem == row.mensagem
  {
    Config(row.ativo != 0, row.mensagem)
  }

  /** What `getAutomations` may resolve with, for a default table `d`: a key per read row's
      trigger and per default trigger; a trigger with read rows takes one of them (the last
      one read, in an order the model leaves open), a trigger without takes its default, active. */
  ghost predicate IsMerge(d: map<string, string>, m: map<string, Config>, rows: map<(string, int), AutomationRow>, clienteId: Option<int>)
  {
    && (forall g :: g in m <==> HasRow(rows, g, clienteId) || g in d)
    && (forall g :: g in m && HasRow(rows, g, clienteId) ==>
          exists k :: k in rows && Selected(k, clienteId) && k.0 == g && m[g] == Stored(rows[k]))
    && (forall g :: g in m && !HasRow(rows, g, clienteId) ==> g in d && m[g] == Config(true, Some(d[g])))
  }

  /** Whether a row is read: every row without a tenant, otherwise that tenant's rows. */
  predicate Selected(k: (string, int), clienteId: Option<int>)
  {
    clienteId.None? || k.1 == clienteId.value
  }

  /** Some read row has this trigger. */
  predicate HasRow(rows: map<(string, int), AutomationRow>, g: string, clienteId: Option<int>)
  {
    exists k :: k in rows && Selected(k, clienteId) && k.0 == g
  }

  /** The triggers the tenant has rows for. */
  function TenantKeys(rows: map<(string, int), AutomationRow>, c: int): set<string>
  {
    set k | k in rows && k.1 == c :: k.0
  }

  /** The merge for one tenant, which the unique key makes a function of the table. */
  function Merged(d: map<string, string>, rows: map<(string, int), AutomationRow>, c: int): map<string, Config>
  {
    (map g | g in d :: Config(true, Some(d[g])))
    + (map g | g in TenantKeys(rows, c) && (g, c) in rows :: Stored(rows[(g, c)]))
  }

  lemma TenantKeysExact(rows: map<(string, int), AutomationRow>, c: int, g: string)
    ensures g in TenantKeys(rows, c) <==> (g, c) in rows
  {
    if (g, c) in rows {
      assert (g, c).0 == g;
    }
  }

  /** For one tenant every merge is `Merged`. */
  lemma MergeIsMerged(d: map<string, string>, m: map<string, Config>, rows: map<(string, int), AutomationRow>, c: int)
    requires IsMerge(d, m, rows, Some(c))
    ensures m == Merged(d, rows, c)
  {
    var r := Merged(d, rows, c);
    forall g ensures g in m <==> g in r {
      TenantKeysExact(rows, c, g);
      if (g, c) in rows {
        assert HasRow(rows, g, Some(c));
      }
    }
    forall g | g in m ensures m[g] == r[g] {
      TenantKeysExact(rows, c, g);
      if (g, c) in rows {
        assert HasRow(rows, g, Some(c));
        var k :| k in rows && Selected(k, Some(c)) && k.0 == g && m[g] == Stored(rows[k]);
        assert k == (g, c);
      } else {
        assert !HasRow(rows, g, Some(c));
      }
    }
  }

  /** Every trigger of the default table has an entry. */
  lemma EveryDefaultPresent(rows: map<(string, int), AutomationRow>, c: int)
    ensures forall g :: g in Keys ==> g in Merged(Templates, rows, c)
  {
    TableKeys();
  }

  /** A stored row wins over the default for its trigger, whether or not that trigger is a
      default one; its `ativo` is the row's flag read as a boolean (0 is false). */
  lemma StoredWins(d: map<string, string>, rows: map<(string, int), AutomationRow>, c: int, g: string)
    requires (g, c) in rows
    ensures g in Merged(d, rows, c)
    ensures Merged(d, rows, c)[g] == Config(rows[(g, c)].ativo != 0, rows[(g, c)].mensagem)
  {
    TenantKeysExact(rows, c, g);
  }

  /** A default trigger without a row of the tenant is filled in active with its default. */
  lemma DefaultFilled(rows: map<(string, int), AutomationRow>, c: int, g: string)
    requires (g, c) !in rows && g in Keys
    ensures g in Merged(Templates, rows, c)
    ensures Merged(Templates, rows, c)[g] == Config(true, Default(g))
  {
    TenantKeysExact(rows, c, g);
    TableKeys();
  }

  /** A trigger that is neither stored for the tenant nor a default has no entry. */
  lemma UnknownAbsent(d: map<string, string>, rows: map<(string, int), AutomationRow>, c: int, g: string)
    requires (g, c) !in rows && g !in d
    ensures g !in Merged(d, rows, c)
  {
    TenantKeysExact(rows, c, g);
  }

  /** Only the tenant's rows matter: tables that agree on them merge the same. */
  lemma OtherTenantsIgnored(d: map<string, string>, rows: map<(string, int), AutomationRow>,
                            other: map<(string, int), AutomationRow>, c: int)
    requires forall g :: (g, c) in rows <==> (g, c) in other
    requires forall g :: (g, c) in rows ==> rows[(g, c)] == other[(g, c)]
    ensures Merged(d, rows, c) == Merged(d, other, c)
  {
    forall g ensures (g in TenantKeys(rows, c)) == (g in TenantKeys(other, c)) {
      TenantKeysExact(rows, c, g);
      TenantKeysExact(other, c, g);
    }
  }

  /** `getAutomations(db, clienteId)`. */
  method GetAutomations(db: Database, clienteId: Option<int>) returns (r: Result<map<string, Config>>)
    ensures Automacoes in db.readFails ==> r == Err(StorageError)
    ensures Automacoes !in db.readFails ==> r.Ok? && IsMerge(Templates, r.value, db.automacoes, clienteId)
    ensures Automacoes !in db.readFails && clienteId.Some? ==> r == Ok(Merged(Templates, db.automacoes, clienteId.value))
  {
    if Automacoes in db.readFails {
      return Err(StorageError);
    }
    var rows := db.automacoes;
    var todo := set k | k in rows && Selected(k, clienteId);
    var acc: map<string, Config> := map[];
    // rows.reduce(...): each read row sets its trigger's entry
    while todo != {}
      invariant todo <= rows.Keys && forall k :: k in todo ==> Selected(k, clienteId)
      invariant forall g :: g in acc <==> exists k :: k in rows && Selected(k, clienteId) && k !in todo && k.0 == g
      invariant forall g :: g in acc ==>
        exists k :: k in rows && Selected(k, clienteId) && k !in todo && k.0 == g && acc[g] == Stored(rows[k])
      decreases |todo|
    {
      var k :| k in todo;
      acc := acc[k.0 := Stored(rows[k])];
      todo := todo - {k};
    }
    assert forall g :: g in acc <==> HasRow(rows, g, clienteId);
    // for (const gatilho in DEFAULT_MESSAGES): fill the missing defaults
    TableKeys();
    acc := FillDefaults(acc, rows, clienteId, Templates, Keys);
    if clienteId.Some? {
      MergeIsMerged(Templates, acc, rows, clienteId.value);
    }
    return Ok(acc);
  }

  /** The `for...in` over the default table of `getAutomations`, for a table `d` whose keys
      are listed in `ks`. */
  method FillDefaults(acc0: map<string, Config>, rows: map<(string, int), AutomationRow>, clienteId: Option<int>,
                      d: map<string, string>, ks: seq<string>) returns (acc: map<string, Config>)
    requires forall g :: g in d <==> g in ks
    requires forall g :: g in acc0 <==> HasRow(rows, g, clienteId)
    requires forall g :: g in acc0 ==>
      exists k :: k in rows && Selected(k, clienteId) && k.0 == g && acc0[g] == Stored(rows[k])
    ensures IsMerge(d, acc, rows, clienteId)
  {
    acc := acc0;
    var i := 0;
    while i < |ks|
      invariant 0 <= i <= |ks|
      invariant forall g :: g in acc <==> HasRow(rows, g, clienteId) || g in ks[..i]
      invariant forall g :: g in acc && HasRow(rows, g, clienteId) ==>
        exists k :: k in rows && Selected(k, clienteId) && k.0 == g && acc[g] == Stored(rows[k])
      invariant forall g :: g in acc && !HasRow(rows, g, clienteId) ==> g in d && acc[g] == Config(true, Some(d[g]))
    {
      var g := ks[i];
      if g !in acc {
        acc := acc[g := Config(true, Some(d[g]))];
      }
      assert ks[..i + 1] == ks[..i] + [g];
      i := i + 1;
    }
    assert ks[..i] == ks;
  }

  // ---- saveAutomations ----

  /** The rows `INSERT OR REPLACE` writes for the given configurations: `ativo` stored as 1/0. */
  function SavedRows(configs: map<string, Config>, c: int): map<(string, int), AutomationRow>
  {
    map k | k in (set g | g in configs :: (g, c)) :: AutomationRow(if configs[k.0].ativo then 1 else 0, configs[k.0].mensagem)
  }

  /** The table after `saveAutomations`: the given keys replaced, every other row kept. */
  function Saved(rows: map<(string, int), AutomationRow>, configs: map<string, Config>, c: int): map<(string, int), AutomationRow>
  {
    rows + SavedRows(configs, c)
  }

  /** A saved key holds the new flag as 1/0 and the new text; every other key is untouched. */
  lemma SavedEffect(rows: map<(string, int), AutomationRow>, configs: map<string, Config>, c: int, k: (string, int))
    ensures k in Saved(rows, configs, c) <==> k in rows || (k.1 == c && k.0 in configs)
    ensures k.1 == c && k.0 in configs ==>
      Saved(rows, configs, c)[k] == AutomationRow(if configs[k.0].ativo then 1 else 0, configs[k.0].mensagem)
    ensures k in rows && !(k.1 == c && k.0 in configs) ==> Saved(rows, configs, c)[k] == rows[k]
  {
    if k.1 == c && k.0 in configs {
      assert k == (k.0, c);
    }
  }

  /** Saving then reading back gives the saved configurations for those keys. */
  lemma SaveThenRead(d: map<string, string>, rows: map<(string, int), AutomationRow>, configs: map<string, Config>, c: int, g: string)
    requires g in configs
    ensures g in Merged(d, Saved(rows, configs, c), c)
    ensures Merged(d, Saved(rows, configs, c), c)[g] == configs[g]
  {
    SavedEffect(rows, configs, c, (g, c));
    StoredWins(d, Saved(rows, configs, c), c, g);
  }

  /** `saveAutomations(db, configs, clienteId)`: the `INSERT OR REPLACE` statements run
      between BEGIN and COMMIT without a callback, so a rejected statement is not observed:
      it writes nothing, COMMIT still runs and the call resolves. `INSERT OR REPLACE` is
      SQLite syntax, so on Postgres every statement is rejected. */
  method SaveAutomations(db: Database, configs: map<string, Config>, clienteId: int) returns (r: Outcome)
    modifies db`automacoes
    ensures r == Pass
    ensures Automacoes in db.writeFails || db.postgres ==> db.automacoes == old(db.automacoes)
    ensures Automacoes !in db.writeFails && !db.postgres ==> db.automacoes == Saved(old(db.automacoes), configs, clienteId)
  {
    if Automacoes in db.writeFails || db.postgres {
      return Pass;
    }
    var rows := ReplaceRows(db.automacoes, configs, clienteId);
    db.automacoes := rows;
    return Pass;
  }

  /** The loop of `saveAutomations` over the given triggers, one `INSERT OR REPLACE` each. */
  method ReplaceRows(rows0: map<(string, int), AutomationRow>, configs: map<string, Config>, clienteId: int)
    returns (rows: map<(string, int), AutomationRow>)
    ensures rows == Saved(rows0, configs, clienteId)
  {
    var todo := configs.Keys;
    rows := rows0;
    while todo != {}
      invariant todo <= configs.Keys
      invariant forall k :: k in rows <==> k in rows0 || (k.1 == clienteId && k.0 in configs && k.0 !in todo)
      invariant forall k :: k in rows && k.1 == clienteId && k.0 in configs && k.0 !in todo ==>
        rows[k] == AutomationRow(if configs[k.0].ativo then 1 else 0, configs[k.0].mensagem)
      invariant forall k :: k in rows && !(k.1 == clienteId && k.0 in configs && k.0 !in todo) ==> rows[k] == rows0[k]
      decreases |todo|
    {
      var g :| g in todo;
      var config := configs[g];
      rows := rows[(g, clienteId) := AutomationRow(if config.ativo then 1 else 0, config.mensagem)];
      todo := todo - {g};
    }
    forall k ensures k in rows <==> k in Saved(rows0, configs, clienteId) {
      SavedEffect(rows0, configs, clienteId, k);
    }
    forall k | k in rows ensures rows[k] == Saved(rows0, configs, clienteId)[k] {
      SavedEffect(rows0, configs, clienteId, k);
    }
  }

  // ---- createDefaultAutomations ----

  /** The default rows of a tenant for a default table `d`: every trigger, active, with its text. */
  function DefaultRows(d: map<string, string>, c: int): map<(string, int), AutomationRow>
  {
    map k | k in (set g | g in d :: (g, c)) :: AutomationRow(1, Some(d[k.0]))
  }

  /** The table after `INSERT OR IGNORE` of the defaults: existing rows win. */
  function Seeded(d: map<string, string>, rows: map<(string, int), AutomationRow>, c: int): map<(string, int), AutomationRow>
  {
    DefaultRows(d, c) + rows
  }

  lemma SeededEffect(d: map<string, string>, rows: map<(string, int), AutomationRow>, c: int, k: (string, int))
    ensures k in Seeded(d, rows, c) <==> k in rows || (k.1 == c && k.0 in d)
    ensures k in rows ==> Seeded(d, rows, c)[k] == rows[k]
    ensures k !in rows && k.1 == c && k.0 in d ==> Seeded(d, rows, c)[k] == AutomationRow(1, Some(d[k.0]))
  {
    if k.1 == c && k.0 in d {
      assert k == (k.0, c);
    }
  }

  /** Seeding never changes or removes a row and gives the tenant a row for each default
      trigger; seeding twice is seeding once. */
  lemma SeedingProperties(d: map<string, string>, rows: map<(string, int), AutomationRow>, c: int)
    ensures forall k :: k in rows ==> k in Seeded(d, rows, c) && Seeded(d, rows, c)[k] == rows[k]
    ensures forall g :: g in d ==> (g, c) in Seeded(d, rows, c)
    ensures Seeded(d, Seeded(d, rows, c), c) == Seeded(d, rows, c)
  {
    forall k | k in rows ensures k in Seeded(d, rows, c) && Seeded(d, rows, c)[k] == rows[k] {
      SeededEffect(d, rows, c, k);
    }
    forall g | g in d ensures (g, c) in Seeded(d, rows, c) {
      SeededEffect(d, rows, c, (g, c));
    }
    var once := Seeded(d, rows, c);
    forall k ensures k in Seeded(d, once, c) <==> k in once {
      SeededEffect(d, once, c, k);
      SeededEffect(d, rows, c, k);
    }
    forall k | k in once ensures Seeded(d, once, c)[k] == once[k] {
      SeededEffect(d, once, c, k);
    }
  }

  /** A tenant without rows reads back exactly the defaults, each active with its text. */
  lemma SeededFreshTenant(d: map<string, string>, rows: map<(string, int), AutomationRow>, c: int)
    requires forall k :: k in rows ==> k.1 != c
    ensures Merged(d, Seeded(d, rows, c), c) == map g | g in d :: Config(true, Some(d[g]))
  {
    var m := Merged(d, Seeded(d, rows, c), c);
    forall g ensures g in m <==> g in d {
      TenantKeysExact(Seeded(d, rows, c), c, g);
      SeededEffect(d, rows, c, (g, c));
    }
    forall g | g in m ensures m[g] == Config(true, Some(d[g])) {
      TenantKeysExact(Seeded(d, rows, c), c, g);
      SeededEffect(d, rows, c, (g, c));
    }
  }

  /** `createDefaultAutomations(db, clienteId)`: one transaction of `INSERT OR IGNORE`
      statements without a callback; as in `saveAutomations`, a rejected statement writes
      nothing and goes unobserved, and COMMIT resolves the call. `INSERT OR IGNORE` is SQLite
      syntax, so on Postgres every statement is rejected. */
  method CreateDefaultAutomations(db: Database, clienteId: int) returns (r: Outcome)
    requires db.Valid()
    modifies db`automacoes
    ensures db.Valid()
    ensures r == Pass
    ensures Automacoes in db.writeFails || db.postgres ==> db.automacoes == old(db.automacoes)
    ensures Automacoes !in db.writeFails && !db.postgres ==> db.automacoes == Seeded(Templates, old(db.automacoes), clienteId)
  {
    if Automacoes in db.writeFails || db.postgres {
      return Pass;
    }
    var rows := SeedRows(db.automacoes, clienteId);
    db.SetAutomacoes(rows);
    return Pass;
  }

  /** The rows `createDefaultAutomations` leaves in the table. */
  method SeedRows(rows0: map<(string, int), AutomationRow>, clienteId: int) returns (rows: map<(string, int), AutomationRow>)
    ensures rows == Seeded(Templates, rows0, clienteId)
  {
    TableKeys();
    rows := InsertDefaults(rows0, clienteId, Templates, Keys);
  }

  /** The statement loop of `createDefaultAutomations` over a default table `d` listed by `ks`. */
  method InsertDefaults(rows0: map<(string, int), AutomationRow>, clienteId: int, d: map<string, string>, ks: seq<string>)
    returns (rows: map<(string, int), AutomationRow>)
    requires forall g :: g in d <==> g in ks
    ensures rows == Seeded(d, rows0, clienteId)
  {
    rows := rows0;
    var i := 0;
    while i < |ks|
      invariant 0 <= i <= |ks|
      invariant forall k :: k in rows <==> k in rows0 || (k.1 == clienteId && k.0 in ks[..i])
      invariant forall k :: k in rows0 ==> rows[k] == rows0[k]
      invariant forall k :: k in rows && k !in rows0 ==> k.0 in d && rows[k] == AutomationRow(1, Some(d[k.0]))
    {
      var g := ks[i];
      if (g, clienteId) !in rows {
        rows := rows[(g, clienteId) := AutomationRow(1, Some(d[g]))];
      }
      assert ks[..i + 1] == ks[..i] + [g];
      i := i + 1;
    }
    assert ks[..i] == ks;
    forall k ensures k in rows <==> k in Seeded(d, rows0, clienteId) {
      SeededEffect(d, rows0, clienteId, k);
    }
    forall k | k in rows ensures rows[k] == Seeded(d, rows0, clienteId)[k] {
      SeededEffect(d, rows0, clienteId, k);
    }
  }
}
