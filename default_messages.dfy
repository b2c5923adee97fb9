/** The compiled-in trigger → template table (`DEFAULT_MESSAGES`). */
module DefaultMessages {
  import opened Util

  const BoasVindas := "boas_vindas"

  /** The six tracking-lifecycle triggers, in the table's order. */
  const TrackingKeys: seq<string> :=
    ["envio_rastreio", "pedido_a_caminho", "pedido_atrasado", "pedido_devolvido",
     "pedido_a_espera", "pedido_cancelado"]

  /** Every trigger of the table, in the table's (insertion) order. */
  const Keys: seq<string> := [BoasVindas] + TrackingKeys

  const FirstNameToken := "{{primeiro_nome}}"
  const CodeToken := "{{codigo_rastreio}}"

  const Templates: map<string, string> := map[
    "boas_vindas" := "Olá " + FirstNameToken + "! Bem-vindo(a). Agradecemos o seu contato!",
    "envio_rastreio" := "Olá " + FirstNameToken + ", o seu pedido foi enviado! O seu código de rastreio é: " + CodeToken,
    "pedido_a_caminho" := "Boas notícias, " + FirstNameToken + "! O seu pedido está a caminho. Pode acompanhar com o código: " + CodeToken,
    "pedido_atrasado" := "Olá " + FirstNameToken + ", notamos um possível atraso na entrega do seu pedido. Já estamos a verificar o que aconteceu. Código: " + CodeToken,
    "pedido_devolvido" := "Atenção " + FirstNameToken + ", o seu pedido foi devolvido ao remetente. Por favor, entre em contato connosco para resolvermos a situação. Código: " + CodeToken,
    "pedido_a_espera" := "Olá " + FirstNameToken + "! O seu pedido está a espera. Agradecemos o seu contato!",
    "pedido_cancelado" := "Olá " + FirstNameToken + "! seu pedido foi cancelado. Agradecemos o seu contato!"
  ]

  /** `DEFAULT_MESSAGES[key]`, `None` for a key the table does not have. */
  function Default(key: string): (r: Option<string>)
    ensures r.Some? <==> key in Keys
    ensures r.Some? ==> r.value == Templates[key] && r.value != ""
  {
    TableKeys();
    if key in Templates then Some(Templates[key]) else None
  }

  /** The keys of the table are exactly `Keys`, seven distinct triggers. */
  lemma TableKeys()
    ensures Templates.Keys == set k | k in Keys
    ensures |Keys| == 7
    ensures forall i, j :: 0 <= i < j < |Keys| ==> Keys[i] != Keys[j]
    ensures forall k :: k in Templates ==> Templates[k] != ""
  {
    TemplateKeys();
    KeysDistinct();
    TemplatesNonEmpty();
  }

  lemma TemplateKeys()
    ensures Templates.Keys == set k | k in Keys
  {
    assert Keys == ["boas_vindas", "envio_rastreio", "pedido_a_caminho", "pedido_atrasado", "pedido_devolvido",
                    "pedido_a_espera", "pedido_cancelado"];
  }

  lemma KeysDistinct()
    ensures |Keys| == 7
    ensures forall i, j :: 0 <= i < j < |Keys| ==> Keys[i] != Keys[j]
  {
    forall i, j | 0 <= i < j < |Keys| ensures Keys[i] != Keys[j] {
      if |Keys[i]| == |Keys[j]| {
        assert Keys[i][7] != Keys[j][7] || Keys[i][8] != Keys[j][8];
      }
    }
  }

  lemma TemplatesNonEmpty()
    ensures forall k :: k in Templates ==> Templates[k] != ""
  {
    forall k | k in Templates ensures Templates[k] != "" {
      assert |Templates[k]| >= |FirstNameToken|;
    }
  }

  lemma {:induction false} DistinctCardinality(s: seq<string>)
    requires forall i, j :: 0 <= i < j < |s| ==> s[i] != s[j]
    ensures |set k | k in s| == |s|
  {
    if s != [] {
      var rest := s[1..];
      DistinctCardinality(rest);
      assert (set k | k in s) == {s[0]} + (set k | k in rest);
      assert s[0] !in rest;
    }
  }

  /** The table has exactly seven triggers. */
  lemma SevenKeys()
    ensures |Templates.Keys| == 7
  {
    TableKeys();
    DistinctCardinality(Keys);
  }

  /** The six non-welcome keys of the table are exactly the tracking triggers. */
  lemma TrackingKeysAreTheRest()
    ensures (set k | k in TrackingKeys) == Templates.Keys - {BoasVindas}
    ensures BoasVindas !in TrackingKeys
  {
    TableKeys();
  }

  lemma OccursBetween(a: string, p: string, b: string)
    ensures Contains(a + p + b, p)
  {
    assert OccursAt(a + p + b, p, |a|) by {
      assert (a + p + b)[|a|..|a| + |p|] == p;
    }
  }

  /** Every default template greets the customer by first name. */
  lemma EveryTemplateHasFirstName(key: string)
    requires key in Templates
    ensures Contains(Templates[key], FirstNameToken)
  {
    var s := Templates[key];
    var head := if key == "pedido_a_caminho" then "Boas notícias, "
      else if key == "pedido_devolvido" then "Atenção " else "Olá ";
    var tail := s[|head| + |FirstNameToken|..];
    assert s == head + FirstNameToken + tail;
    OccursBetween(head, FirstNameToken, tail);
  }

  /** The four shipping-related templates end with the tracking code token. */
  lemma ShippingTemplatesHaveCode(key: string)
    requires key in ["envio_rastreio", "pedido_a_caminho", "pedido_atrasado", "pedido_devolvido"]
    ensures Contains(Templates[key], CodeToken)
  {
    var s := Templates[key];
    var head := s[..|s| - |CodeToken|];
    assert s == head + CodeToken + "";
    OccursBetween(head, CodeToken, "");
  }
}
