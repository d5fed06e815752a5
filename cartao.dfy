/** The payment card (models/usuario.py, class Cartao): the expiry check and
    the brand detected from the card number's leading digits. Today's date is
    a parameter. */
module Cartoes {
  import opened Texto

  /** The `bandeira_cartao_enum` column. */
  datatype Bandeira = Visa | Mastercard | Elo | AmericanExpress | Hipercard | Outro

  function NomeBandeira(b: Bandeira): string
  {
    match b
    case Visa => "Visa"
    case Mastercard => "Mastercard"
    case Elo => "Elo"
    case AmericanExpress => "American Express"
    case Hipercard => "Hipercard"
    case Outro => "Outro"
  }

  datatype TipoCartao = Credito | Debito

  /** The card columns apart from the hashes and timestamps. */
  datatype Cartao = Cartao(
    nomeTitular: string,
    tipo: TipoCartao,
    bandeira: Bandeira,
    ultimosDigitos: string,
    validadeMes: int,
    validadeAno: int,
    principal: bool,
    ativo: bool)
  {
    /** `esta_valido` on the day whose year and month are given. */
    predicate EstaValido(hojeAno: int, hojeMes: int)
    {
      validadeAno > hojeAno || (validadeAno == hojeAno && validadeMes >= hojeMes)
    }
  }

  /** With months in 1..12, a card is valid exactly while its expiry month,
      counted in months since year 0, is not before the current one. */
  lemma EstaValidoEmMeses(c: Cartao, hojeAno: int, hojeMes: int)
    requires 1 <= c.validadeMes <= 12 && 1 <= hojeMes <= 12
    ensures c.EstaValido(hojeAno, hojeMes) <==> c.validadeAno * 12 + c.validadeMes >= hojeAno * 12 + hojeMes
  {
  }

  /** A card valid on some day was valid on every earlier day. */
  lemma EstaValidoAntes(c: Cartao, ano1: int, mes1: int, ano2: int, mes2: int)
    requires ano1 < ano2 || (ano1 == ano2 && mes1 <= mes2)
    ensures c.EstaValido(ano2, mes2) ==> c.EstaValido(ano1, mes1)
  {
  }

  // ---------------------------------------------------------------------------
  // Brand detection
  // ---------------------------------------------------------------------------

  /** The Elo BINs the source lists. */
  const EloBins: seq<string> := ["4011", "4312", "4389", "4514", "4573", "5067", "5090", "6277", "6362", "6363"]

  /** The Elo BINs that do not start with 4. */
  const EloBinsAlcancaveis: seq<string> := ["5067", "5090", "6277", "6362", "6363"]

  const PrefixosMastercard: seq<string> := ["51", "52", "53", "54", "55"]

  const PrefixosAmex: seq<string> := ["34", "37"]

  /** Python's `s[:k]`: the first `k` characters, or all of a shorter `s`. */
  function Prefixo(s: string, k: nat): (r: string)
    ensures r == if |s| <= k then s else s[..k]
    ensures AllDigits(s) ==> AllDigits(r)
  {
    if |s| <= k then s else s[..k]
  }

  /** `detectar_bandeira`. */
  function DetectarBandeira(numero: string): Bandeira
  {
    var n := Digits(numero);
    if n == [] then Outro
    else if n[0] == '4' then Visa
    else if Prefixo(n, 2) in PrefixosMastercard then Mastercard
    else if 2221 <= ParseDigits(Prefixo(n, 4)) <= 2720 then Mastercard
    else if Prefixo(n, 4) in EloBins then Elo
    else if Prefixo(n, 2) in PrefixosAmex then AmericanExpress
    else if Prefixo(n, 4) == "6062" then Hipercard
    else Outro
  }

  /** The value of four digits. */
  lemma ParseDigitsQuatro(s: string)
    requires |s| == 4 && AllDigits(s)
    ensures ParseDigits(s) == 1000 * DigitValue(s[0]) + 100 * DigitValue(s[1]) + 10 * DigitValue(s[2]) + DigitValue(s[3])
  {
    assert s[..3][..2] == s[..2];
    assert s[..2][..1] == s[..1];
    assert s[..1][..0] == [];
    assert ParseDigits(s[..1]) == DigitValue(s[0]);
    assert ParseDigits(s[..2]) == ParseDigits(s[..1]) * 10 + DigitValue(s[1]);
    assert ParseDigits(s[..3]) == ParseDigits(s[..2]) * 10 + DigitValue(s[2]);
    assert ParseDigits(s) == ParseDigits(s[..3]) * 10 + DigitValue(s[3]);
  }

  /** Fewer than four digits are worth less than 1000. */
  lemma ParseDigitsCurto(s: string)
    requires |s| < 4 && AllDigits(s)
    ensures ParseDigits(s) < 1000
  {
    if |s| >= 1 {
      assert |s[..|s| - 1]| < 3;
      if |s| >= 2 {
        assert s[..|s| - 1][..|s| - 2] == s[..|s| - 2];
        if |s| == 3 {
          assert s[..1][..0] == [];
        }
      }
    }
  }

  /** The value of the first four digits (or fewer) lies outside the second
      Mastercard range when the leading digit is not 2. */
  lemma ForaDaFaixaMastercard(n: string)
    requires AllDigits(n) && n != [] && n[0] != '2'
    ensures !(2221 <= ParseDigits(Prefixo(n, 4)) <= 2720)
  {
    var p := Prefixo(n, 4);
    if |p| == 4 {
      ParseDigitsQuatro(p);
      assert p[0] == n[0];
    } else {
      ParseDigitsCurto(p);
    }
  }

  /** No digits at all: "Outro". */
  lemma BandeiraSemDigitos(numero: string)
    requires Digits(numero) == []
    ensures DetectarBandeira(numero) == Outro
  {
  }

  /** A leading 4 is always "Visa", whatever follows. */
  lemma BandeiraVisa(numero: string)
    requires Digits(numero) != [] && Digits(numero)[0] == '4'
    ensures DetectarBandeira(numero) == Visa
  {
  }

  /** 51-55, or a first four digits in 2221..2720: "Mastercard". */
  lemma BandeiraMastercard(numero: string)
    requires
      var n := Digits(numero);
      (|n| >= 2 && n[..2] in PrefixosMastercard) || (|n| >= 4 && 2221 <= ParseDigits(n[..4]) <= 2720)
    ensures DetectarBandeira(numero) == Mastercard
  {
    var n := Digits(numero);
    if |n| >= 2 && n[..2] in PrefixosMastercard {
      assert Prefixo(n, 2) == n[..2];
      assert n[0] == n[..2][0] == '5';
    } else {
      ParseDigitsQuatro(n[..4]);
      assert n[0] == n[..4][0];
      assert Prefixo(n, 4) == n[..4];
      assert DigitValue(n[0]) == 2;
    }
  }

  /** 34 or 37: "American Express". */
  lemma BandeiraAmex(numero: string)
    requires var n := Digits(numero); |n| >= 2 && n[..2] in PrefixosAmex
    ensures DetectarBandeira(numero) == AmericanExpress
  {
    var n := Digits(numero);
    assert Prefixo(n, 2) == n[..2];
    assert n[0] == n[..2][0] == '3';
    ForaDaFaixaMastercard(n);
    var p := Prefixo(n, 4);
    assert p[0] == '3';
    assert p !in EloBins by {
      forall k | 0 <= k < |EloBins| ensures EloBins[k] != p { assert EloBins[k][0] != '3'; }
    }
  }

  /** 6062: "Hipercard". */
  lemma BandeiraHipercard(numero: string)
    requires var n := Digits(numero); |n| >= 4 && n[..4] == "6062"
    ensures DetectarBandeira(numero) == Hipercard
  {
    var n := Digits(numero);
    assert n[0] == n[..4][0] == '6';
    assert n[..2] == n[..4][..2] == "60";
    ForaDaFaixaMastercard(n);
  }

  /** Exactly the Elo BINs that do not start with 4 yield "Elo". */
  lemma BandeiraEloSse(numero: string)
    ensures DetectarBandeira(numero) == Elo <==>
      var n := Digits(numero);
      |n| >= 4 && n[..4] in EloBinsAlcancaveis
  {
    var n := Digits(numero);
    if |n| >= 4 && n[..4] in EloBinsAlcancaveis {
      var p := n[..4];
      assert Prefixo(n, 4) == p && Prefixo(n, 2) == n[..2] == p[..2];
      assert p in EloBins;
      assert n[0] == p[0];
      assert p[..2] == "50" || p[..2] == "62" || p[..2] == "63";
      ForaDaFaixaMastercard(n);
    }
    if DetectarBandeira(numero) == Elo {
      var p := Prefixo(n, 4);
      assert p in EloBins && n[0] != '4';
      assert |p| == 4;
      assert p == n[..4];
      assert p[0] == n[0];
    }
  }

  /** The five Elo BINs starting with 4 can never yield "Elo": the Visa test
      comes first. */
  lemma BinsEloComQuatroSaoVisa(numero: string)
    requires var n := Digits(numero); |n| >= 4 && n[..4] in EloBins && n[0] == '4'
    ensures DetectarBandeira(numero) == Visa
  {
  }

  /** A concrete 4011 card. */
  lemma EloQuatroExemplo()
    ensures "4011" in EloBins && DetectarBandeira("4011 7890 1234 5678") == Visa
  {
    var s := "4011 7890 1234 5678";
    assert s == "4011 7890 1234 5678";
    assert s[0] == '4' && IsDigit(s[0]);
    assert Digits(s) == [s[0]] + Digits(s[1..]);
  }

  /** The detection with the Elo BINs tested before the Visa prefix. */
  function DetectarBandeiraCorrigida(numero: string): Bandeira
  {
    var n := Digits(numero);
    if |n| >= 4 && n[..4] in EloBins then Elo
    else DetectarBandeira(numero)
  }

  /** Every listed Elo BIN now yields "Elo", and nothing else changes. */
  lemma BandeiraCorrigidaElo(numero: string)
    ensures DetectarBandeiraCorrigida(numero) == Elo <==>
      var n := Digits(numero);
      |n| >= 4 && n[..4] in EloBins
    ensures
      var n := Digits(numero);
      !(|n| >= 4 && n[..4] in EloBins) ==> DetectarBandeiraCorrigida(numero) == DetectarBandeira(numero)
  {
    BandeiraEloSse(numero);
  }
}
