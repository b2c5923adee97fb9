/** Brazilian mobile-number canonicalisation (`normalizeTelefone`). The canonical form
    `55` + two-digit area code (DDD) + nine-digit number is the key of the per-tenant
    unique phone index of `pedidos`. */
module Telefone {
  import opened Util

  /** `s.replace(/\D/g, '')`: the decimal digits of `s`, in order. */
  function DigitsOnly(s: string): string
  {
    if s == [] then []
    else if IsDigit(s[0]) then [s[0]] + DigitsOnly(s[1..])
    else DigitsOnly(s[1..])
  }

  /** Only digits are kept, and the result is no longer than the input. */
  lemma {:induction false} DigitsOnlyIsDigits(s: string)
    ensures |DigitsOnly(s)| <= |s|
    ensures AllDigits(DigitsOnly(s))
  {
    if s != [] {
      DigitsOnlyIsDigits(s[1..]);
    }
  }

  predicate AllDigits(s: string)
  {
    forall i :: 0 <= i < |s| ==> IsDigit(s[i])
  }

  /** The shape of every non-null result: 13 digits starting with the country code 55. */
  predicate IsCanonical(s: string)
  {
    |s| == 13 && s[..2] == "55" && AllDigits(s)
  }

  predicate IsMobileLead(c: char)
  {
    c == '6' || c == '7' || c == '8' || c == '9'
  }

  /** The local part (DDD + number) after one leading `55` is stripped. */
  function LocalPart(raw: string): string
  {
    var d := DigitsOnly(raw);
    if StartsWith(d, "55") then d[2..] else d
  }

  /** The subscriber number after the 9th-digit rule; meaningful when the local part has 10 or 11 digits. */
  function BaseNumber(local: string): string
    requires |local| >= 2
  {
    var b := local[2..];
    if |b| == 8 && IsMobileLead(b[0]) then "9" + b else b
  }

  /** `normalizeTelefone(telefoneRaw)`; `None` is `null`. */
  function Normalize(raw: Option<string>): (r: Option<string>)
    ensures !Truthy(raw) ==> r == None
    ensures r.Some? ==> IsCanonical(r.value)
  {
    if !Truthy(raw) then None
    else
      DigitsOnlyIsDigits(raw.value);
      var local := LocalPart(raw.value);
      if |local| < 10 || |local| > 11 then None
      else
        var base := BaseNumber(local);
        if |base| != 9 then None
        else Some("55" + local[..2] + base)
  }

  lemma {:induction false} DigitsOnlyOfDigits(s: string)
    requires AllDigits(s)
    ensures DigitsOnly(s) == s
  {
    if s != [] {
      DigitsOnlyOfDigits(s[1..]);
    }
  }

  lemma {:induction false} DigitsOnlyAppend(a: string, b: string)
    ensures DigitsOnly(a + b) == DigitsOnly(a) + DigitsOnly(b)
  {
    if a != [] {
      assert (a + b)[0] == a[0];
      assert (a + b)[1..] == a[1..] + b;
      DigitsOnlyAppend(a[1..], b);
    } else {
      assert a + b == b;
    }
  }

  /** When a result exists it is exactly '55', the first two local digits, then nine digits:
      eleven local digits pass through, ten pass only when the number starts with 6-9 (a '9' is
      prepended); every other length is rejected. */
  lemma NormalizeCases(raw: string)
    ensures var local := LocalPart(raw);
      Normalize(Some(raw)).Some? <==>
        (|local| == 11 || (|local| == 10 && IsMobileLead(local[2])))
    ensures var local := LocalPart(raw);
      |local| == 10 && IsMobileLead(local[2]) ==>
        Normalize(Some(raw)) == Some("55" + local[..2] + "9" + local[2..])
    ensures var local := LocalPart(raw);
      |local| == 11 ==> Normalize(Some(raw)) == Some("55" + local)
  {
    var local := LocalPart(raw);
    assert raw == "" ==> local == "";
    if |local| == 10 || |local| == 11 {
      assert Truthy(Some(raw));
      var base := BaseNumber(local);
      assert Normalize(Some(raw)) == if |base| == 9 then Some("55" + local[..2] + base) else None;
      if |local| == 11 {
        assert base == local[2..];
        assert local[..2] + local[2..] == local;
        assert "55" + local[..2] + local[2..] == "55" + local;
      } else {
        assert local[2..][0] == local[2];
        if IsMobileLead(local[2]) {
          assert base == "9" + local[2..];
          assert "55" + local[..2] + ("9" + local[2..]) == "55" + local[..2] + "9" + local[2..];
        }
      }
    }
  }

  /** Normalising a normalised number gives it back (idempotence on results). */
  lemma NormalizeIdempotent(raw: Option<string>)
    requires Normalize(raw).Some?
    ensures Normalize(Normalize(raw)) == Normalize(raw)
  {
    var s := Normalize(raw).value;
    assert IsCanonical(s);
    DigitsOnlyOfDigits(s);
    assert StartsWith(s, "55");
    var local := LocalPart(s);
    assert local == s[2..];
    assert |local| == 11;
    NormalizeCases(s);
    assert s[..2] + s[2..] == s;
  }

  /** A DDD-55 mobile written without the country code loses the DDD to the `55` strip
      and is rejected. */
  lemma AreaCode55WithoutCountryCodeRejected(number: string)
    requires |number| == 9 && AllDigits(number)
    ensures Normalize(Some("55" + number)) == None
  {
    var s := "55" + number;
    assert AllDigits(s) by {
      forall i | 0 <= i < |s| ensures IsDigit(s[i]) {
        if i >= 2 { assert s[i] == number[i - 2]; }
      }
    }
    DigitsOnlyOfDigits(s);
    assert s[..2] == "55";
    assert LocalPart(s) == number;
  }

  /** Eleven bare digits that do not start with 55 gain the country code. */
  lemma NormalizeBareMobile(s: string)
    requires |s| == 11 && AllDigits(s) && !StartsWith(s, "55")
    ensures Normalize(Some(s)) == Some("55" + s)
  {
    DigitsOnlyOfDigits(s);
    assert LocalPart(s) == s;
    NormalizeCases(s);
  }

  /** A canonical number is its own normalisation. */
  lemma NormalizeCanonicalFixed(s: string)
    requires IsCanonical(s)
    ensures Normalize(Some(s)) == Some(s)
  {
    DigitsOnlyOfDigits(s);
    assert StartsWith(s, "55");
    assert LocalPart(s) == s[2..];
    NormalizeCases(s);
    assert s[..2] + s[2..] == s;
  }

  /** The unit-test inputs '11987654321' and '5511987654321' both give `5511987654321`. */
  lemma BareAndCanonicalExamples(bare: string, canonical: string)
    requires bare == "11987654321" && canonical == "5511987654321"
    ensures Normalize(Some(bare)) == Some(canonical)
    ensures Normalize(Some(canonical)) == Some(canonical)
  {
    assert AllDigits(bare);
    assert bare[0] == '1';
    NormalizeBareMobile(bare);
    assert "55" + bare == canonical;
    NormalizeCanonicalFixed(canonical);
  }

  /** Punctuation and blanks are ignored: the digits decide. */
  lemma SameDigitsSameResult(a: string, b: string)
    requires DigitsOnly(a) == DigitsOnly(b)
    ensures Normalize(Some(a)) == Normalize(Some(b))
  {
    assert a == "" ==> DigitsOnly(a) == "";
    assert b == "" ==> DigitsOnly(b) == "";
  }

  lemma {:induction false} DigitsOnlyOfFive(p1: string, p2: string, p3: string, p4: string, p5: string)
    ensures DigitsOnly(p1 + p2 + p3 + p4 + p5)
         == DigitsOnly(p1) + DigitsOnly(p2) + DigitsOnly(p3) + DigitsOnly(p4) + DigitsOnly(p5)
  {
    DigitsOnlyAppend(p1 + p2 + p3 + p4, p5);
    DigitsOnlyAppend(p1 + p2 + p3, p4);
    DigitsOnlyAppend(p1 + p2, p3);
    DigitsOnlyAppend(p1, p2);
  }

  /** Separators between digit groups are ignored. */
  lemma {:induction false} SeparatorsIgnored(ddd: string, x: char, head: string, y: char, tail: string)
    requires !IsDigit(x) && !IsDigit(y)
    ensures DigitsOnly(ddd + [x] + head + [y] + tail) == DigitsOnly(ddd + head + tail)
  {
    DigitsOnlyOfFive(ddd, [x], head, [y], tail);
    assert DigitsOnly([x]) == [] && DigitsOnly([y]) == [];
    DigitsOnlyAppend(ddd + head, tail);
    DigitsOnlyAppend(ddd, head);
  }

  /** The formatted unit-test input '11 98765-4321' gives the same result as its bare digits. */
  lemma SpacedExample(spaced: string, bare: string)
    requires spaced == "11 98765-4321" && bare == "11987654321"
    ensures Normalize(Some(spaced)) == Normalize(Some(bare))
  {
    SeparatorsIgnored(spaced[..2], spaced[2], spaced[3..8], spaced[8], spaced[9..]);
    assert spaced[..2] + [spaced[2]] + spaced[3..8] + [spaced[8]] + spaced[9..] == spaced;
    assert spaced[..2] == bare[..2] && spaced[3..8] == bare[2..7] && spaced[9..] == bare[7..];
    assert bare[..2] + bare[2..7] + bare[7..] == bare;
    SameDigitsSameResult(spaced, bare);
  }

  /** The formatted unit-test input '(11)98765-4321' gives the same result as its bare digits. */
  lemma ParenthesisedExample(parenthesised: string, bare: string)
    requires parenthesised == "(11)98765-4321" && bare == "11987654321"
    ensures Normalize(Some(parenthesised)) == Normalize(Some(bare))
  {
    var rest := parenthesised[1..];
    assert parenthesised == [parenthesised[0]] + rest;
    DigitsOnlyAppend([parenthesised[0]], rest);
    assert DigitsOnly([parenthesised[0]]) == [];
    SeparatorsIgnored(rest[..2], rest[2], rest[3..8], rest[8], rest[9..]);
    assert rest[..2] + [rest[2]] + rest[3..8] + [rest[8]] + rest[9..] == rest;
    assert rest[..2] == bare[..2] && rest[3..8] == bare[2..7] && rest[9..] == bare[7..];
    assert bare[..2] + bare[2..7] + bare[7..] == bare;
    SameDigitsSameResult(parenthesised, bare);
  }

  /** The unit-test input '12345' is too short and gives `null`. */
  lemma ShortExample(short: string)
    requires short == "12345"
    ensures Normalize(Some(short)) == None
  {
    assert AllDigits(short);
    DigitsOnlyOfDigits(short);
    assert short[0] == '1';
    assert LocalPart(short) == short;
  }
}
