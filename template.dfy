/** `personalizarMensagem`: a template is filled in from an order by a fixed chain of
    global replacements, one per `{{token}}`, applied in a fixed order. */
module Template {
  import opened Util
  import opened Db

  const CorreiosUrl := "https://rastreamento.correios.com.br/app/index.php?objetos="
  const NoStatus := "Status não disponível"

  /** The token names, in the order their replacements are applied. */
  const TokenNames: seq<string> := [
    "nome_cliente", "primeiro_nome", "produto_nome", "codigo_rastreio", "status_rastreio",
    "status_atual", "data_postagem_formatada", "data_atualizacao_formatada", "data_atualizacao",
    "cidade_etapa_origem", "cidade_etapa_destino", "link_rastreio", "telefone"]

  /** The literal text `{{name}}` the replacement for `name` looks for. */
  function Pattern(name: string): (r: string)
    ensures |r| == |name| + 4 && r[0] == '{' && r[1] == '{'
  {
    "{{" + name + "}}"
  }

  /** Date formatting, which belongs to the JavaScript runtime: `iso` is `toISOString`
      (`None` when the date is invalid and the call throws), `dateTime` is
      `toLocaleString` and `date` is `toLocaleDateString` in the São Paulo time zone. */
  datatype Formats = Formats(iso: string -> Option<string>, dateTime: string -> string, date: string -> string)

  /** `nome.split(' ')[0]`: the text before the first space. */
  function FirstName(nome: string): (r: string)
    ensures r <= nome
    ensures ' ' !in r
    ensures r == nome || nome[|r|] == ' '
  {
    if nome == [] || nome[0] == ' ' then [] else [nome[0]] + FirstName(nome[1..])
  }

  /** The (raw, formatted) renderings of `ultimaAtualizacao`: both '' when it is empty, and
      both the stored text when it is not a valid date. */
  function UpdateDates(p: Pedido, f: Formats): (string, string)
  {
    var atual := StrCol(p, UltimaAtualizacao);
    if !Truthy(atual) then ("", "")
    else match f.iso(atual.value)
      case Some(iso) => (iso, f.dateTime(atual.value))
      case None => (atual.value, atual.value)
  }

  /** The replacement value of each token for this order, aligned with `TokenNames`. */
  function Values(p: Pedido, f: Formats): (r: seq<string>)
    ensures |r| == |TokenNames|
  {
    var nome := OrEmpty(StrCol(p, Nome));
    var codigo := StrCol(p, CodigoRastreio);
    var postagem := StrCol(p, DataPostagem);
    var status := OrElse(StrCol(p, StatusInterno), NoStatus);
    var (raw, formatted) := UpdateDates(p, f);
    [nome, FirstName(nome), OrEmpty(StrCol(p, Produto)), OrEmpty(codigo), status, status,
     if Truthy(postagem) then f.date(postagem.value) else "",
     formatted, raw,
     OrEmpty(StrCol(p, OrigemUltimaMovimentacao)), OrEmpty(StrCol(p, DestinoUltimaMovimentacao)),
     if Truthy(codigo) then CorreiosUrl + codigo.value else "",
     OrEmpty(StrCol(p, Telefone))]
  }

  /** The (token name, value) pairs in replacement order. */
  function Substitutions(p: Pedido, f: Formats): (r: seq<(string, string)>)
    ensures |r| == |TokenNames|
    ensures forall i :: 0 <= i < |r| ==> r[i] == (TokenNames[i], Values(p, f)[i])
  {
    var vs := Values(p, f);
    seq(|TokenNames|, i requires 0 <= i < |TokenNames| => (TokenNames[i], vs[i]))
  }

  /** The replacement chain: each pair replaces every occurrence of its pattern in the text
      the previous replacements produced. */
  function Chain(s: string, subs: seq<(string, string)>): string
    decreases |subs|
  {
    if subs == [] then s
    else Chain(ReplaceAll(s, Pattern(subs[0].0), subs[0].1), subs[1..])
  }

  /** `personalizarMensagem(mensagem, pedido)`; `None` is `null`. */
  function Personalizar(mensagem: Option<string>, p: Pedido, f: Formats): (r: Option<string>)
    ensures !Truthy(mensagem) <==> r == None
  {
    if !Truthy(mensagem) then None else Some(Chain(mensagem.value, Substitutions(p, f)))
  }

  // ---- Token-free templates ----

  /** A text containing none of the patterns is its own result. */
  lemma {:induction false} ChainAbsent(s: string, subs: seq<(string, string)>)
    requires forall i :: 0 <= i < |subs| ==> !Contains(s, Pattern(subs[i].0))
    ensures Chain(s, subs) == s
    decreases |subs|
  {
    if subs != [] {
      ReplaceAllAbsent(s, Pattern(subs[0].0), subs[0].1);
      assert forall i :: 0 <= i < |subs[1..]| ==> subs[1..][i] == subs[i + 1];
      ChainAbsent(s, subs[1..]);
    }
  }

  /** A template with none of the thirteen tokens comes back unchanged. */
  lemma TokenFreeUnchanged(m: string, p: Pedido, f: Formats)
    requires m != ""
    requires forall i :: 0 <= i < |TokenNames| ==> !Contains(m, Pattern(TokenNames[i]))
    ensures Personalizar(Some(m), p, f) == Some(m)
  {
    ChainAbsent(m, Substitutions(p, f));
  }

  /** A text without '{' contains no token. */
  lemma NoBraceNoToken(s: string, name: string)
    requires '{' !in s
    ensures !Contains(s, Pattern(name))
  {
    var pat := Pattern(name);
    forall k | 0 <= k <= |s| ensures !OccursAt(s, pat, k) {
      if k + |pat| <= |s| {
        assert s[k..k + |pat|][0] == s[k];
      }
    }
  }

  /** A template without '{' comes back unchanged. */
  lemma BracelessUnchanged(m: string, p: Pedido, f: Formats)
    requires m != "" && '{' !in m
    ensures Personalizar(Some(m), p, f) == Some(m)
  {
    forall i | 0 <= i < |TokenNames| ensures !Contains(m, Pattern(TokenNames[i])) {
      NoBraceNoToken(m, TokenNames[i]);
    }
    TokenFreeUnchanged(m, p, f);
  }

  // ---- Templates as text and tokens ----

  /** A template read as literal text pieces and tokens. */
  datatype Segment = Text(t: string) | Token(name: string)

  function Flatten(segs: seq<Segment>): string
  {
    if segs == [] then ""
    else (match segs[0] case Text(t) => t case Token(n) => Pattern(n)) + Flatten(segs[1..])
  }

  /** Token names hold no brace. */
  predicate ValidName(n: string)
  {
    '{' !in n && '}' !in n
  }

  /** Literal pieces hold no '{' and tokens have valid names. */
  predicate WellFormed(segs: seq<Segment>)
  {
    forall i :: 0 <= i < |segs| ==>
      match segs[i] case Text(t) => '{' !in t case Token(n) => ValidName(n)
  }

  /** The value of the first pair for `name`. */
  function Lookup(subs: seq<(string, string)>, name: string): (r: Option<string>)
    ensures r.None? <==> forall i :: 0 <= i < |subs| ==> subs[i].0 != name
  {
    if subs == [] then None
    else if subs[0].0 == name then Some(subs[0].1)
    else Lookup(subs[1..], name)
  }

  /** The intended filling: every token with a value is replaced by it, other text stays. */
  function Fill(segs: seq<Segment>, subs: seq<(string, string)>): string
  {
    if segs == [] then ""
    else
      (match segs[0]
       case Text(t) => t
       case Token(n) => match Lookup(subs, n) case Some(v) => v case None => Pattern(n))
      + Fill(segs[1..], subs)
  }

  /** One replacement step on the segment view: tokens named `name` become text `v`. */
  function Apply(segs: seq<Segment>, name: string, v: string): (r: seq<Segment>)
    ensures |r| == |segs|
    ensures forall i :: 0 <= i < |segs| ==>
      r[i] == (if segs[i] == Token(name) then Text(v) else segs[i])
  {
    if segs == [] then [] else [if segs[0] == Token(name) then Text(v) else segs[0]] + Apply(segs[1..], name, v)
  }

  lemma {:induction false} SkipText(t: string, rest: string, pat: string, v: string)
    requires pat != [] && pat[0] == '{' && '{' !in t
    ensures ReplaceAll(t + rest, pat, v) == t + ReplaceAll(rest, pat, v)
    decreases |t|
  {
    if t != [] {
      var s := t + rest;
      assert s[0] == t[0];
      if |s| < |pat| {
        assert ReplaceAll(rest, pat, v) == rest;
      } else {
        assert s[..|pat|][0] != pat[0];
        assert s[1..] == t[1..] + rest;
        SkipText(t[1..], rest, pat, v);
        assert t == [t[0]] + t[1..];
      }
    } else {
      assert t + rest == rest;
    }
  }

  lemma MatchToken(pat: string, rest: string, v: string)
    requires pat != []
    ensures ReplaceAll(pat + rest, pat, v) == v + ReplaceAll(rest, pat, v)
  {
    var s := pat + rest;
    assert s[..|pat|] == pat;
    assert s[|pat|..] == rest;
  }

  /** The pattern of `a` does not start the pattern of a different valid name `b`. */
  lemma PatternsDiffer(a: string, b: string, rest: string)
    requires ValidName(a) && ValidName(b) && a != b
    requires |Pattern(b) + rest| >= |Pattern(a)|
    ensures (Pattern(b) + rest)[..|Pattern(a)|] != Pattern(a)
  {
    var s := Pattern(b) + rest;
    var pa := Pattern(a);
    if |a| < |b| {
      assert pa[2 + |a|] == '}';
      assert s[2 + |a|] == b[|a|];
    } else if |a| > |b| {
      assert pa[2 + |b|] == a[|b|];
      assert s[2 + |b|] == '}';
    } else {
      var i :| 0 <= i < |a| && a[i] != b[i];
      assert pa[2 + i] == a[i];
      assert s[2 + i] == b[i];
    }
  }

  lemma OtherToken(a: string, b: string, rest: string, v: string)
    requires ValidName(a) && ValidName(b) && a != b
    ensures ReplaceAll(Pattern(b) + rest, Pattern(a), v) == Pattern(b) + ReplaceAll(rest, Pattern(a), v)
  {
    var pa := Pattern(a);
    var s := Pattern(b) + rest;
    var tail := b + "}}";
    assert '{' !in tail;
    assert s == "{" + ("{" + (tail + rest));
    SkipText(tail, rest, pa, v);
    if |s| < |pa| {
      assert |rest| < |pa|;
      assert ReplaceAll(rest, pa, v) == rest;
    } else {
      PatternsDiffer(a, b, rest);
      var s1 := s[1..];
      assert s1 == "{" + (tail + rest);
      if |s1| < |pa| {
        assert |rest| < |pa|;
        assert ReplaceAll(rest, pa, v) == rest;
      } else {
        assert s1[..|pa|][1] != pa[1];
        assert s1[1..] == tail + rest;
        assert Pattern(b) == "{" + ("{" + tail);
      }
    }
  }

  /** One replacement on a well-formed template is the segment-level `Apply`. */
  lemma {:induction false} ReplaceFlatten(segs: seq<Segment>, name: string, v: string)
    requires WellFormed(segs) && ValidName(name)
    ensures ReplaceAll(Flatten(segs), Pattern(name), v) == Flatten(Apply(segs, name, v))
  {
    var pat := Pattern(name);
    if segs == [] {
      assert ReplaceAll("", pat, v) == "";
    } else {
      var rest := Flatten(segs[1..]);
      assert WellFormed(segs[1..]) by {
        forall i | 0 <= i < |segs[1..]| ensures match segs[1..][i] case Text(t) => '{' !in t case Token(n) => ValidName(n) {
          assert segs[1..][i] == segs[i + 1];
        }
      }
      ReplaceFlatten(segs[1..], name, v);
      var applied := Apply(segs, name, v);
      assert applied[1..] == Apply(segs[1..], name, v);
      match segs[0]
      case Text(t) =>
        assert '{' !in t by { assert segs[0] == Text(t); }
        SkipText(t, rest, pat, v);
      case Token(n) =>
        assert ValidName(n) by { assert segs[0] == Token(n); }
        if n == name {
          MatchToken(pat, rest, v);
        } else {
          OtherToken(name, n, rest, v);
        }
    }
  }

  lemma {:induction false} FillApply(segs: seq<Segment>, subs: seq<(string, string)>)
    requires subs != []
    ensures Fill(Apply(segs, subs[0].0, subs[0].1), subs[1..]) == Fill(segs, subs)
  {
    if segs != [] {
      FillApply(segs[1..], subs);
      assert Apply(segs, subs[0].0, subs[0].1)[1..] == Apply(segs[1..], subs[0].0, subs[0].1);
    }
  }

  lemma ApplyWellFormed(segs: seq<Segment>, name: string, v: string)
    requires WellFormed(segs) && (Token(name) in segs ==> '{' !in v)
    ensures WellFormed(Apply(segs, name, v))
    ensures forall n :: Token(n) in Apply(segs, name, v) ==> Token(n) in segs
  {
    var r := Apply(segs, name, v);
    forall i | 0 <= i < |r| ensures match r[i] case Text(t) => '{' !in t case Token(n) => ValidName(n) {
      if segs[i] != Token(name) {
        assert r[i] == segs[i];
      }
    }
    forall n | Token(n) in r ensures Token(n) in segs {
      var i :| 0 <= i < |r| && r[i] == Token(n);
      assert segs[i] == Token(n);
    }
  }

  /** The replacement chain on a well-formed template is the intended filling, provided
      no token name has a brace and no value put in for a token of the template has a '{'
      (so no value supplies a token of its own). */
  lemma {:induction false} ChainFill(segs: seq<Segment>, subs: seq<(string, string)>)
    requires WellFormed(segs)
    requires forall i :: 0 <= i < |subs| ==> ValidName(subs[i].0)
    requires forall i :: 0 <= i < |subs| && Token(subs[i].0) in segs ==> '{' !in subs[i].1
    ensures Chain(Flatten(segs), subs) == Fill(segs, subs)
    decreases |subs|
  {
    if subs == [] {
      FillNoSubs(segs);
    } else {
      ReplaceFlatten(segs, subs[0].0, subs[0].1);
      ApplyWellFormed(segs, subs[0].0, subs[0].1);
      assert forall i :: 0 <= i < |subs[1..]| ==> subs[1..][i] == subs[i + 1];
      ChainFill(Apply(segs, subs[0].0, subs[0].1), subs[1..]);
      FillApply(segs, subs);
    }
  }

  lemma {:induction false} FillNoSubs(segs: seq<Segment>)
    ensures Fill(segs, []) == Flatten(segs)
  {
    if segs != [] {
      FillNoSubs(segs[1..]);
    }
  }

  /** The token names of the renderer are valid names. */
  lemma TokenNamesValid()
    ensures forall i :: 0 <= i < |TokenNames| ==> ValidName(TokenNames[i])
  {
    forall i | 0 <= i < |TokenNames| ensures ValidName(TokenNames[i]) {
      if i < 5 {
        FirstNamesValid(i);
      } else if i < 9 {
        DateNamesValid(i);
      } else {
        LastNamesValid(i);
      }
    }
  }

  lemma FirstNamesValid(i: int)
    requires 0 <= i < 5
    ensures ValidName(TokenNames[i])
  {
    if i < 3 {
      assert ValidName("nome_cliente") && ValidName("primeiro_nome") && ValidName("produto_nome");
    } else {
      assert ValidName("codigo_rastreio") && ValidName("status_rastreio");
    }
  }

  lemma DateNamesValid(i: int)
    requires 5 <= i < 9
    ensures ValidName(TokenNames[i])
  {
    assert ValidName("status_atual") && ValidName("data_postagem_formatada");
    assert ValidName("data_atualizacao_formatada") && ValidName("data_atualizacao");
  }

  lemma LastNamesValid(i: int)
    requires 9 <= i < 13
    ensures ValidName(TokenNames[i])
  {
    assert ValidName("cidade_etapa_origem") && ValidName("cidade_etapa_destino");
    assert ValidName("link_rastreio") && ValidName("telefone");
  }

  /** The rendering of a well-formed template whose tokens take values without '{': each
      of the thirteen tokens becomes its value, everything else is kept. */
  lemma PersonalizarFills(segs: seq<Segment>, p: Pedido, f: Formats)
    requires WellFormed(segs) && Flatten(segs) != ""
    requires forall i :: 0 <= i < |TokenNames| && Token(TokenNames[i]) in segs ==> '{' !in Values(p, f)[i]
    ensures Personalizar(Some(Flatten(segs)), p, f) == Some(Fill(segs, Substitutions(p, f)))
  {
    TokenNamesValid();
    ChainFill(segs, Substitutions(p, f));
  }

  lemma TokenNamesDistinct()
    ensures forall i, j :: 0 <= i < j < |TokenNames| ==> TokenNames[i] != TokenNames[j]
  {
  }

  /** Each token is looked up to the value aligned with it. */
  lemma LookupAligned(p: Pedido, f: Formats, k: int)
    requires 0 <= k < |TokenNames|
    ensures Lookup(Substitutions(p, f), TokenNames[k]) == Some(Values(p, f)[k])
  {
    TokenNamesDistinct();
    LookupAt(Substitutions(p, f), k, TokenNames[k]);
  }

  /** The value each token stands for: the whole name, the first name, the code, the status
      or its placeholder, the Correios link (empty without code) and the phone, missing
      columns giving ''. */
  lemma TokenValues(p: Pedido, f: Formats)
    ensures Lookup(Substitutions(p, f), "nome_cliente") == Some(OrEmpty(StrCol(p, Nome)))
    ensures Lookup(Substitutions(p, f), "primeiro_nome") == Some(FirstName(OrEmpty(StrCol(p, Nome))))
    ensures Lookup(Substitutions(p, f), "produto_nome") == Some(OrEmpty(StrCol(p, Produto)))
    ensures Lookup(Substitutions(p, f), "codigo_rastreio") == Some(OrEmpty(StrCol(p, CodigoRastreio)))
    ensures Lookup(Substitutions(p, f), "status_rastreio") == Some(OrElse(StrCol(p, StatusInterno), NoStatus))
    ensures Lookup(Substitutions(p, f), "status_atual") == Some(OrElse(StrCol(p, StatusInterno), NoStatus))
    ensures Lookup(Substitutions(p, f), "cidade_etapa_origem") == Some(OrEmpty(StrCol(p, OrigemUltimaMovimentacao)))
    ensures Lookup(Substitutions(p, f), "cidade_etapa_destino") == Some(OrEmpty(StrCol(p, DestinoUltimaMovimentacao)))
    ensures Lookup(Substitutions(p, f), "link_rastreio") ==
      Some(if Truthy(StrCol(p, CodigoRastreio)) then CorreiosUrl + StrCol(p, CodigoRastreio).value else "")
    ensures Lookup(Substitutions(p, f), "telefone") == Some(OrEmpty(StrCol(p, Telefone)))
  {
    CustomerTokenValues(p, f);
    TrackingTokenValues(p, f);
  }

  lemma CustomerTokenValues(p: Pedido, f: Formats)
    ensures Lookup(Substitutions(p, f), "nome_cliente") == Some(OrEmpty(StrCol(p, Nome)))
    ensures Lookup(Substitutions(p, f), "primeiro_nome") == Some(FirstName(OrEmpty(StrCol(p, Nome))))
    ensures Lookup(Substitutions(p, f), "produto_nome") == Some(OrEmpty(StrCol(p, Produto)))
    ensures Lookup(Substitutions(p, f), "telefone") == Some(OrEmpty(StrCol(p, Telefone)))
  {
    TokenValue(p, f, 0, "nome_cliente", OrEmpty(StrCol(p, Nome)));
    TokenValue(p, f, 1, "primeiro_nome", FirstName(OrEmpty(StrCol(p, Nome))));
    TokenValue(p, f, 2, "produto_nome", OrEmpty(StrCol(p, Produto)));
    TokenValue(p, f, 12, "telefone", OrEmpty(StrCol(p, Telefone)));
  }

  lemma TrackingTokenValues(p: Pedido, f: Formats)
    ensures Lookup(Substitutions(p, f), "codigo_rastreio") == Some(OrEmpty(StrCol(p, CodigoRastreio)))
    ensures Lookup(Substitutions(p, f), "status_rastreio") == Some(OrElse(StrCol(p, StatusInterno), NoStatus))
    ensures Lookup(Substitutions(p, f), "status_atual") == Some(OrElse(StrCol(p, StatusInterno), NoStatus))
    ensures Lookup(Substitutions(p, f), "cidade_etapa_origem") == Some(OrEmpty(StrCol(p, OrigemUltimaMovimentacao)))
    ensures Lookup(Substitutions(p, f), "cidade_etapa_destino") == Some(OrEmpty(StrCol(p, DestinoUltimaMovimentacao)))
    ensures Lookup(Substitutions(p, f), "link_rastreio") ==
      Some(if Truthy(StrCol(p, CodigoRastreio)) then CorreiosUrl + StrCol(p, CodigoRastreio).value else "")
  {
    CodeTokenValues(p, f);
    StatusTokenValues(p, f);
    CityTokenValues(p, f);
  }

  lemma CodeTokenValues(p: Pedido, f: Formats)
    ensures Lookup(Substitutions(p, f), "codigo_rastreio") == Some(OrEmpty(StrCol(p, CodigoRastreio)))
    ensures Lookup(Substitutions(p, f), "link_rastreio") ==
      Some(if Truthy(StrCol(p, CodigoRastreio)) then CorreiosUrl + StrCol(p, CodigoRastreio).value else "")
  {
    TokenValue(p, f, 3, "codigo_rastreio", OrEmpty(StrCol(p, CodigoRastreio)));
    TokenValue(p, f, 11, "link_rastreio", if Truthy(StrCol(p, CodigoRastreio)) then CorreiosUrl + StrCol(p, CodigoRastreio).value else "");
  }

  lemma StatusTokenValues(p: Pedido, f: Formats)
    ensures Lookup(Substitutions(p, f), "status_rastreio") == Some(OrElse(StrCol(p, StatusInterno), NoStatus))
    ensures Lookup(Substitutions(p, f), "status_atual") == Some(OrElse(StrCol(p, StatusInterno), NoStatus))
  {
    TokenValue(p, f, 4, "status_rastreio", OrElse(StrCol(p, StatusInterno), NoStatus));
    TokenValue(p, f, 5, "status_atual", OrElse(StrCol(p, StatusInterno), NoStatus));
  }

  lemma CityTokenValues(p: Pedido, f: Formats)
    ensures Lookup(Substitutions(p, f), "cidade_etapa_origem") == Some(OrEmpty(StrCol(p, OrigemUltimaMovimentacao)))
    ensures Lookup(Substitutions(p, f), "cidade_etapa_destino") == Some(OrEmpty(StrCol(p, DestinoUltimaMovimentacao)))
  {
    TokenValue(p, f, 9, "cidade_etapa_origem", OrEmpty(StrCol(p, OrigemUltimaMovimentacao)));
    TokenValue(p, f, 10, "cidade_etapa_destino", OrEmpty(StrCol(p, DestinoUltimaMovimentacao)));
  }

  /** The token `name` at position `k` is looked up to `value`. */
  lemma TokenValue(p: Pedido, f: Formats, k: int, name: string, value: string)
    requires 0 <= k < |TokenNames| && TokenNames[k] == name && Values(p, f)[k] == value
    ensures Lookup(Substitutions(p, f), name) == Some(value)
  {
    LookupAligned(p, f, k);
  }

  /** The lookup finds the first pair with the name. */
  lemma {:induction false} LookupAt(subs: seq<(string, string)>, k: int, name: string)
    requires 0 <= k < |subs| && subs[k].0 == name
    requires forall i :: 0 <= i < k ==> subs[i].0 != name
    ensures Lookup(subs, name) == Some(subs[k].1)
  {
    if k > 0 {
      LookupAt(subs[1..], k - 1, name);
    }
  }
}
