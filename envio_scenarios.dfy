/** The two dispatcher scenarios of the controller's own test suite, worked out on the model. */
module EnvioScenarios {
  import opened Util
  import opened Db
  import opened Wire
  import opened Template
  import opened Automations
  import opened Envio
  import WhatsApp

  /** 'Olá {{primeiro_nome}}, seu status é {{status_atual}}' */
  const StatusTemplate := "Olá " + Pattern("primeiro_nome") + ", seu status é " + Pattern("status_atual")

  /** 'Olá João, seu status é Pedido a caminho' */
  const Expected := "Olá " + "João" + ", seu status é " + "Pedido a caminho"

  /** The template read as text and tokens. */
  lemma TemplateSegments(segs: seq<Segment>)
    requires segs == [Text("Olá "), Token("primeiro_nome"), Text(", seu status é "), Token("status_atual")]
    ensures WellFormed(segs) && Flatten(segs) == StatusTemplate
  {
    SegmentsWellFormed(segs);
    SegmentsFlatten(segs);
  }

  lemma SegmentsWellFormed(segs: seq<Segment>)
    requires segs == [Text("Olá "), Token("primeiro_nome"), Text(", seu status é "), Token("status_atual")]
    ensures WellFormed(segs)
  {
    NoBraces();
    forall i | 0 <= i < |segs|
      ensures match segs[i] case Text(t) => '{' !in t case Token(n) => ValidName(n)
    {
      if i == 0 {
        assert segs[i] == Text("Olá ");
      } else if i == 1 {
        assert segs[i] == Token("primeiro_nome");
      } else if i == 2 {
        assert segs[i] == Text(", seu status é ");
      } else {
        assert segs[i] == Token("status_atual");
      }
    }
  }

  lemma NoBraces()
    ensures '{' !in "Olá " && '{' !in ", seu status é "
    ensures ValidName("primeiro_nome") && ValidName("status_atual")
  {
  }

  lemma SegmentsFlatten(segs: seq<Segment>)
    requires segs == [Text("Olá "), Token("primeiro_nome"), Text(", seu status é "), Token("status_atual")]
    ensures Flatten(segs) == StatusTemplate
  {
    assert Flatten(segs[3..]) == Pattern("status_atual");
    assert Flatten(segs[2..]) == ", seu status é " + Pattern("status_atual");
    assert Flatten(segs[1..]) == Pattern("primeiro_nome") + ", seu status é " + Pattern("status_atual");
  }

  /** The first name of 'João Teste'. */
  lemma FirstNameOfJoao(nome: string)
    requires nome == "João Teste"
    ensures FirstName(nome) == "João"
  {
    var r := FirstName(nome);
    assert nome[4] == ' ';
    assert |r| <= 4;
    assert r != nome by {
      assert nome[4] in nome;
    }
    assert nome[|r|] == ' ';
    assert r == nome[..|r|];
  }

  lemma LowerStatus(s: string)
    requires s == "Pedido a caminho"
    ensures Lower(s) == "pedido a caminho"
  {
  }

  lemma UnderscoreStatus(s: string)
    requires s == "pedido a caminho"
    ensures UnderscoreWhitespace(s) == "pedido_a_caminho"
  {
    var r, e := UnderscoreWhitespace(s), "pedido_a_caminho";
    forall i | 0 <= i < |s| ensures r[i] == e[i] {
      if i != 6 && i != 8 {
        assert 'a' <= s[i] <= 'z';
      }
    }
    assert r == e;
  }

  /** The test order's columns: a code, the new status 'Pedido a caminho' and the marker
      left by the tracking message (its other columns play no part). */
  predicate StatusChangeOrder(p: Pedido)
  {
    && p.id == 1 && p.clienteId == Some(5)
    && Get(p, Nome) == Str("João Teste") && Get(p, Telefone) == Str("11988887777")
    && Get(p, CodigoRastreio) == Str("AB123") && Get(p, StatusInterno) == Str("Pedido a caminho")
    && Get(p, MensagemUltimoStatus) == Str(EnvioRastreio)
  }

  /** Rules 1 and 2 do not hold (there is a code and the marker is `envio_rastreio`); rule 3
      does, with key 'pedido_a_caminho' and marker 'pedido a caminho'. */
  lemma StatusChangeTrigger(p: Pedido)
    requires StatusChangeOrder(p)
    ensures Classify(p) == Some(Trigger("pedido_a_caminho", "pedido a caminho"))
  {
    StatusChangeRuleThree(p);
    RuleThreeChosen(p);
    UnderscoreStatus("pedido a caminho");
  }

  /** The test order meets the conditions of rule 3. */
  lemma StatusChangeRuleThree(p: Pedido)
    requires StatusChangeOrder(p)
    ensures Truthy(StrCol(p, CodigoRastreio))
    ensures StrCol(p, MensagemUltimoStatus).Some? && StrCol(p, MensagemUltimoStatus).value in SentKeys
    ensures Truthy(StrCol(p, StatusInterno)) && Lower(StrCol(p, StatusInterno).value) == "pedido a caminho"
    ensures Some(Lower(StrCol(p, StatusInterno).value)) != StrCol(p, MensagemUltimoStatus)
  {
    var status := StrCol(p, StatusInterno).value;
    assert status == "Pedido a caminho";
    LowerStatus(status);
    assert StrCol(p, MensagemUltimoStatus) == Some(EnvioRastreio);
    assert SentKeys[0] == EnvioRastreio;
    assert |Lower(status)| != |EnvioRastreio|;
  }

  /** A template whose only tokens are the first name and the status is filled in as
      intended when those two values hold no '{'. */
  lemma FillsNameAndStatus(segs: seq<Segment>, p: Pedido, f: Formats)
    requires WellFormed(segs) && Flatten(segs) != ""
    requires forall n :: Token(n) in segs ==> n == "primeiro_nome" || n == "status_atual"
    requires '{' !in FirstName(OrEmpty(StrCol(p, Nome))) && '{' !in OrElse(StrCol(p, StatusInterno), NoStatus)
    ensures Personalizar(Some(Flatten(segs)), p, f) == Some(Fill(segs, Substitutions(p, f)))
  {
    var vs := Values(p, f);
    forall i | 0 <= i < |TokenNames| && Token(TokenNames[i]) in segs ensures '{' !in vs[i] {
      assert TokenNames[i] == "primeiro_nome" || TokenNames[i] == "status_atual";
      assert i == 1 || i == 5;
    }
    PersonalizarFills(segs, p, f);
  }

  lemma StatusSegmentsTokens(segs: seq<Segment>)
    requires segs == [Text("Olá "), Token("primeiro_nome"), Text(", seu status é "), Token("status_atual")]
    ensures forall n :: Token(n) in segs ==> n == "primeiro_nome" || n == "status_atual"
  {
  }

  /** The first name of the test order is 'João' and its status is 'Pedido a caminho'. */
  lemma StatusChangeValues(p: Pedido)
    requires StatusChangeOrder(p)
    ensures FirstName(OrEmpty(StrCol(p, Nome))) == "João"
    ensures OrElse(StrCol(p, StatusInterno), NoStatus) == "Pedido a caminho"
  {
    FirstNameOfJoao(OrEmpty(StrCol(p, Nome)));
  }

  /** The two tokens of the template are looked up to those values. */
  lemma StatusChangeLookups(p: Pedido, f: Formats)
    requires StatusChangeOrder(p)
    ensures Lookup(Substitutions(p, f), "primeiro_nome") == Some("João")
    ensures Lookup(Substitutions(p, f), "status_atual") == Some("Pedido a caminho")
  {
    StatusChangeValues(p);
    TokenValues(p, f);
  }

  /** The replacement chain on the test order is the intended filling of the template. */
  lemma StatusChangeFills(p: Pedido, f: Formats, segs: seq<Segment>)
    requires StatusChangeOrder(p)
    requires segs == [Text("Olá "), Token("primeiro_nome"), Text(", seu status é "), Token("status_atual")]
    ensures Personalizar(Some(Flatten(segs)), p, f) == Some(Fill(segs, Substitutions(p, f)))
  {
    TemplateSegments(segs);
    StatusSegmentsTokens(segs);
    StatusChangeValues(p);
    FillsNameAndStatus(segs, p, f);
  }

  /** The filling with those two values is the expected text. */
  lemma StatusChangeFilled(segs: seq<Segment>, subs: seq<(string, string)>)
    requires segs == [Text("Olá "), Token("primeiro_nome"), Text(", seu status é "), Token("status_atual")]
    requires Lookup(subs, "primeiro_nome") == Some("João") && Lookup(subs, "status_atual") == Some("Pedido a caminho")
    ensures Fill(segs, subs) == Expected
  {
    FillFour("Olá ", "primeiro_nome", ", seu status é ", "status_atual", subs);
  }

  /** The rendered template. */
  lemma StatusChangeRender(p: Pedido, f: Formats, segs: seq<Segment>)
    requires StatusChangeOrder(p)
    requires segs == [Text("Olá "), Token("primeiro_nome"), Text(", seu status é "), Token("status_atual")]
    ensures Personalizar(Some(Flatten(segs)), p, f) == Some(Expected)
  {
    StatusChangeFills(p, f, segs);
    StatusChangeLookups(p, f);
    StatusChangeFilled(segs, Substitutions(p, f));
  }

  lemma FillFour(a: string, n1: string, b: string, n2: string, subs: seq<(string, string)>)
    requires Lookup(subs, n1).Some? && Lookup(subs, n2).Some?
    ensures Fill([Text(a), Token(n1), Text(b), Token(n2)], subs)
         == a + Lookup(subs, n1).value + b + Lookup(subs, n2).value
  {
    var segs := [Text(a), Token(n1), Text(b), Token(n2)];
    var v1, v2 := Lookup(subs, n1).value, Lookup(subs, n2).value;
    assert segs[3..][1..] == [];
    assert Fill(segs[3..], subs) == v2;
    assert segs[2..][1..] == segs[3..];
    assert Fill(segs[2..], subs) == b + v2;
    assert segs[1..][1..] == segs[2..];
    assert Fill(segs[1..], subs) == v1 + (b + v2);
  }

  /** Test 'envia mensagem quando status muda': rule 3 fires, its text is the rendered
      template and its marker is the lowercased status with the spaces kept. */
  lemma StatusChangeDecision(p: Pedido, autos: map<string, Config>, f: Formats)
    requires StatusChangeOrder(p)
    requires autos == map["pedido_a_caminho" := Config(true, Some(StatusTemplate))]
    ensures Decide(p, autos, f) == Fire("pedido a caminho", Expected)
  {
    StatusChangeTrigger(p);
    var segs := [Text("Olá "), Token("primeiro_nome"), Text(", seu status é "), Token("status_atual")];
    TemplateSegments(segs);
    StatusChangeRender(p, f, segs);
  }

  /** The same test, on the whole tenant: with no storage fault and a client that accepts the
      request, the client is asked to send that text to the order's phone, the order gets the
      marker 'pedido a caminho' and tenant 5 gets one live update for order 1. */
  lemma StatusChangeSweep(env: Env, w: World, client: nat, p: Pedido, autos: map<string, Config>, i: int)
    requires StatusChangeOrder(p) && env.writeFails == {}
    requires autos == map["pedido_a_caminho" := Config(true, Some(StatusTemplate))]
    requires !env.refuses(client, WhatsApp.TextRequest(Some("11988887777"), Expected))
    requires UniquePhonePerTenant(w.pedidos) && 0 <= i < |w.pedidos| && w.pedidos[i] == p
    ensures var (w1, o) := ProcessOrders(env, w, 5, Some(client), autos, [p], true);
      && o == Pass
      && w1.events == w.events + [Call(client, WhatsApp.TextRequest(Some("11988887777"), Expected)),
                                  Push(Some(5), NovaMensagem(1))]
      && |w1.pedidos| == |w.pedidos| && Get(w1.pedidos[i], MensagemUltimoStatus) == Str("pedido a caminho")
  {
    StatusChangeDecision(p, autos, env.f);
    assert StrCol(p, Telefone) == Some("11988887777");
    SingleDispatch(env, w, 5, client, autos, p, true, i);
  }

  /** Test 'nao envia mensagem se status não mudou': the marker already is the lowercased
      status, but it is not one of the six trigger names, so rule 2's condition holds first;
      `envio_rastreio` is not configured, and the order is passed over. */
  lemma UnchangedStatusQuiet(p: Pedido, autos: map<string, Config>, f: Formats)
    requires p.id == 2 && p.clienteId == Some(5)
    requires p.cols == map[Nome := Str("Maria"), Telefone := Str("11999999999"), CodigoRastreio := Str("CD456"),
                           StatusInterno := Str("Pedido a caminho"), MensagemUltimoStatus := Str("pedido a caminho")]
    requires autos == map["pedido_a_caminho" := Config(true, Some(StatusTemplate))]
    ensures Classify(p) == Some(Trigger(EnvioRastreio, EnvioRastreio))
    ensures Decide(p, autos, f) == Quiet
  {
    assert StrCol(p, CodigoRastreio) == Some("CD456");
    assert StrCol(p, MensagemUltimoStatus) == Some("pedido a caminho");
    assert "pedido a caminho" !in SentKeys;
    assert EnvioRastreio !in autos;
  }
}
