/** The user (models/usuario.py, class Usuario): the static validators and
    formatters for CPF, e-mail and phone, the role predicates, the password
    setter and checker over an abstract hash, and the failed-login lockout,
    whose methods update the counter and the lock time in place. Times are
    integer seconds passed in by the caller. */
module Usuarios {
  import opened Base
  import opened Texto

  // ---------------------------------------------------------------------------
  // CPF
  // ---------------------------------------------------------------------------

  /** The eleven-digit strings the validators refuse outright. */
  const CpfsInvalidos: seq<string> :=
    ["00000000000", "11111111111", "22222222222", "33333333333", "44444444444",
     "55555555555", "66666666666", "77777777777", "88888888888", "99999999999"]

  /** Every character equals the first one. */
  predicate MesmoDigito(d: string) { forall k :: 0 <= k < |d| ==> d[k] == d[0] }

  /** `sum(int(d[i]) * (peso - i) for i in range(n))`. */
  function SomaPonderada(d: string, n: nat, peso: int): int
    requires n <= |d|
  {
    if n == 0 then 0 else SomaPonderada(d, n - 1, peso) + DigitValue(d[n - 1]) * (peso - (n - 1))
  }

  /** `11 - soma % 11`, replaced by 0 when it is 10 or 11: always one digit. */
  function DigitoVerificador(soma: int): (dv: int)
    ensures 0 <= dv < 10
    ensures dv == 0 || dv == 11 - soma % 11
  {
    var x := 11 - soma % 11;
    if x >= 10 then 0 else x
  }

  /** The two mod-11 check digits of an eleven-digit string hold. */
  predicate DigitosConferem(d: string)
    requires |d| == 11
  {
    && DigitValue(d[9]) == DigitoVerificador(SomaPonderada(d, 9, 10))
    && DigitValue(d[10]) == DigitoVerificador(SomaPonderada(d, 10, 11))
  }

  /** `validar_cpf`. */
  function ValidarCpf(cpf: string): bool
  {
    if cpf == [] then false
    else
      var d := Digits(cpf);
      |d| == 11 && d !in CpfsInvalidos && DigitosConferem(d)
  }

  /** Reference definition: the CPF whose nine base digits are `base`, with its
      two check digits appended. */
  function CompletarCpf(base: string): (d: string)
    requires |base| == 9 && AllDigits(base)
    ensures |d| == 11 && AllDigits(d) && d[..9] == base
  {
    var b10 := base + [DigitChar(DigitoVerificador(SomaPonderada(base, 9, 10)))];
    b10 + [DigitChar(DigitoVerificador(SomaPonderada(b10, 10, 11)))]
  }

  /** The weighted sum reads only the first `n` characters. */
  lemma {:induction false} SomaPrefixo(a: string, b: string, n: nat, peso: int)
    requires n <= |a| && n <= |b| && a[..n] == b[..n]
    ensures SomaPonderada(a, n, peso) == SomaPonderada(b, n, peso)
  {
    if n > 0 {
      assert a[n - 1] == a[..n][n - 1] == b[..n][n - 1] == b[n - 1];
      assert a[..n - 1] == a[..n][..n - 1];
      assert b[..n - 1] == b[..n][..n - 1];
      SomaPrefixo(a, b, n - 1, peso);
    }
  }

  lemma DigitCharValue(c: char)
    requires IsDigit(c)
    ensures DigitChar(DigitValue(c)) == c
  {
  }

  /** On digit strings, the known-invalid list is exactly the eleven-digit
      strings made of one repeated digit. */
  lemma CpfsInvalidosSse(d: string)
    requires AllDigits(d)
    ensures d in CpfsInvalidos <==> |d| == 11 && MesmoDigito(d)
  {
    if |d| == 11 && MesmoDigito(d) {
      var c := d[0];
      assert d == [c, c, c, c, c, c, c, c, c, c, c];
      assert IsDigit(c);
      if c == '0' { assert d == CpfsInvalidos[0]; }
      else if c == '1' { assert d == CpfsInvalidos[1]; }
      else if c == '2' { assert d == CpfsInvalidos[2]; }
      else if c == '3' { assert d == CpfsInvalidos[3]; }
      else if c == '4' { assert d == CpfsInvalidos[4]; }
      else if c == '5' { assert d == CpfsInvalidos[5]; }
      else if c == '6' { assert d == CpfsInvalidos[6]; }
      else if c == '7' { assert d == CpfsInvalidos[7]; }
      else if c == '8' { assert d == CpfsInvalidos[8]; }
      else { assert d == CpfsInvalidos[9]; }
    }
    if d in CpfsInvalidos {
      var k :| 0 <= k < |CpfsInvalidos| && CpfsInvalidos[k] == d;
      assert MesmoDigito(CpfsInvalidos[k]);
    }
  }

  /** `sum(peso - i for i in range(n))`, the weights alone. */
  function SomaPesos(n: nat, peso: int): int
  {
    if n == 0 then 0 else SomaPesos(n - 1, peso) + (peso - (n - 1))
  }

  /** On a run of one digit of value `v` the weighted sum is `v` times the weights. */
  lemma {:induction false} SomaRepetida(d: string, n: nat, peso: int, v: int)
    requires n <= |d| && forall k :: 0 <= k < n ==> DigitValue(d[k]) == v
    ensures SomaPonderada(d, n, peso) == v * SomaPesos(n, peso)
  {
    if n > 0 {
      SomaRepetida(d, n - 1, peso, v);
      assert v * SomaPesos(n, peso) == v * SomaPesos(n - 1, peso) + v * (peso - (n - 1));
    }
  }

  /** For a repeated digit `v` both check digits come out as `v` again. */
  lemma DigitoRepetido(v: int)
    requires 0 <= v < 10
    ensures DigitoVerificador(54 * v) == v && DigitoVerificador(65 * v) == v
  {
    if v == 0 { } else if v == 1 { } else if v == 2 { } else if v == 3 { } else if v == 4 { }
    else if v == 5 { } else if v == 6 { } else if v == 7 { } else if v == 8 { } else { }
  }

  /** Every eleven-digit string of one repeated digit passes both check
      digits, which is why the validators list those strings separately. */
  lemma RepetidoConfere(d: string)
    requires |d| == 11 && AllDigits(d) && MesmoDigito(d)
    ensures DigitosConferem(d)
  {
    var v := DigitValue(d[0]);
    assert forall i :: 0 <= i < |d| ==> DigitValue(d[i]) == v;
    assert SomaPesos(9, 10) == 54 && SomaPesos(10, 11) == 65;
    SomaRepetida(d, 9, 10, v);
    SomaRepetida(d, 10, 11, v);
    DigitoRepetido(v);
  }

  /** In particular every string of the known-invalid list passes them. */
  lemma RepetidosPassamNosDigitos()
    ensures forall k :: 0 <= k < |CpfsInvalidos| ==> DigitosConferem(CpfsInvalidos[k])
  {
    forall k | 0 <= k < |CpfsInvalidos| ensures DigitosConferem(CpfsInvalidos[k]) {
      var d := CpfsInvalidos[k];
      assert AllDigits(d);
      CpfsInvalidosSse(d);
      RepetidoConfere(d);
    }
  }

  /** The check digits hold exactly when the digits are the completion of
      their first nine. */
  lemma DigitosConferemSse(d: string)
    requires |d| == 11 && AllDigits(d)
    ensures DigitosConferem(d) <==> d == CompletarCpf(d[..9])
  {
    var base := d[..9];
    var c := CompletarCpf(base);
    var b10 := base + [DigitChar(DigitoVerificador(SomaPonderada(base, 9, 10)))];
    assert c == b10 + [c[10]];
    SomaPrefixo(d, base, 9, 10);
    assert d[9] == c[9] <==> DigitValue(d[9]) == DigitoVerificador(SomaPonderada(d, 9, 10)) by {
      DigitCharValue(d[9]);
    }
    if d[9] == c[9] {
      assert d[..10] == b10;
      SomaPrefixo(d, b10, 10, 11);
      assert d[10] == c[10] <==> DigitValue(d[10]) == DigitoVerificador(SomaPonderada(d, 10, 11)) by {
        DigitCharValue(d[10]);
      }
      if d[10] == c[10] {
        assert d == d[..10] + [d[10]];
        assert d == c;
      }
    }
  }

  /** `validar_cpf` accepts exactly the inputs whose digits number eleven, are
      not one repeated digit, and are the completion of their first nine. */
  lemma ValidarCpfSse(cpf: string)
    ensures ValidarCpf(cpf) <==>
      var d := Digits(cpf);
      |d| == 11 && !MesmoDigito(d) && d == CompletarCpf(d[..9])
  {
    var d := Digits(cpf);
    if cpf == [] {
      assert d == [];
    }
    CpfsInvalidosSse(d);
    if |d| == 11 {
      DigitosConferemSse(d);
    }
  }

  /** Completing nine base digits yields a valid CPF unless the result is one
      repeated digit. */
  lemma CompletarCpfValido(base: string)
    requires |base| == 9 && AllDigits(base)
    ensures ValidarCpf(CompletarCpf(base)) <==> !MesmoDigito(CompletarCpf(base))
  {
    var c := CompletarCpf(base);
    DigitsOfAllDigits(c);
    ValidarCpfSse(c);
  }

  /** Appending a punctuation mark and a run of digits appends just the digits. */
  lemma DigitsAposSeparador(p: string, sep: string, x: string)
    requires Digits(sep) == [] && AllDigits(x)
    ensures Digits(p + sep + x) == Digits(p) + x
  {
    DigitsConcat(p + sep, x);
    DigitsConcat(p, sep);
    DigitsOfAllDigits(x);
  }

  /** The digits of a CPF written NNN.NNN.NNN-NN. */
  lemma DigitsCpfPontuado(a: string, b: string, c: string, e: string)
    requires AllDigits(a) && AllDigits(b) && AllDigits(c) && AllDigits(e)
    ensures Digits(a + "." + b + "." + c + "-" + e) == a + b + c + e
  {
    assert Digits(".") == [] && Digits("-") == [];
    DigitsOfAllDigits(a);
    DigitsAposSeparador(a, ".", b);
    DigitsAposSeparador(a + "." + b, ".", c);
    DigitsAposSeparador(a + "." + b + "." + c, "-", e);
  }

  /** The weighted sums of the example CPF 529.982.247-2x, whose first ten
      digits are 5299822472, and the check digits they give. */
  lemma SomasExemplo(c: char)
    ensures SomaPonderada("5299822472" + [c], 9, 10) == 295
    ensures SomaPonderada("5299822472" + [c], 10, 11) == 347
    ensures DigitoVerificador(295) == 2 && DigitoVerificador(347) == 5
  {
    var b := "5299822472";
    var d := b + [c];
    assert d[..9] == b[..9];
    assert d[..10] == b[..10];
    SomaPrefixo(d, b, 9, 10);
    SomaPrefixo(d, b, 10, 11);
    assert SomaPonderada(b, 9, 10) == 295 by {
      assert SomaPonderada(b, 3, 10) == 50 + 18 + 72;
      assert SomaPonderada(b, 6, 10) == 140 + 63 + 48 + 10;
      assert SomaPonderada(b, 9, 10) == 261 + 8 + 12 + 14;
    }
    assert SomaPonderada(b, 10, 11) == 347 by {
      assert SomaPonderada(b, 3, 11) == 55 + 20 + 81;
      assert SomaPonderada(b, 6, 11) == 156 + 72 + 56 + 12;
      assert SomaPonderada(b, 10, 11) == 296 + 10 + 16 + 21 + 4;
    }
    assert 295 % 11 == 9 && 347 % 11 == 6;
  }

  /** The example's check digits hold exactly when its last digit is 5. */
  lemma ConferemExemplo(c: char)
    ensures |"5299822472" + [c]| == 11
    ensures DigitosConferem("5299822472" + [c]) <==> DigitValue(c) == 5
  {
    var d := "5299822472" + [c];
    SomasExemplo(c);
    assert d[9] == '2' && d[10] == c;
  }

  /** A digit string whose first two digits differ is not on the known-invalid list. */
  lemma ForaDosInvalidos(d: string)
    requires |d| >= 2 && d[0] != d[1]
    ensures d !in CpfsInvalidos
  {
    forall k | 0 <= k < |CpfsInvalidos| ensures CpfsInvalidos[k] != d {
      assert CpfsInvalidos[k][0] == CpfsInvalidos[k][1];
    }
  }

  /** The digits of the punctuated example CPFs. */
  lemma DigitsCpfValido()
    ensures Digits("529.982.247-25") == "5299822472" + ['5']
  {
    assert "529.982.247-25" == "529" + "." + "982" + "." + "247" + "-" + "25";
    DigitsCpfPontuado("529", "982", "247", "25");
    assert "529" + "982" + "247" + "25" == "5299822472" + ['5'];
  }

  lemma DigitsCpfErrado()
    ensures Digits("529.982.247-26") == "5299822472" + ['6']
  {
    assert "529.982.247-26" == "529" + "." + "982" + "." + "247" + "-" + "26";
    DigitsCpfPontuado("529", "982", "247", "26");
    assert "529" + "982" + "247" + "26" == "5299822472" + ['6'];
  }

  /** A well-known valid CPF. */
  lemma CpfValidoExemplo()
    ensures ValidarCpf("529.982.247-25")
  {
    DigitsCpfValido();
    ForaDosInvalidos("5299822472" + ['5']);
    ConferemExemplo('5');
  }

  /** The same CPF with a wrong last check digit. */
  lemma CpfDigitoErradoExemplo()
    ensures !ValidarCpf("529.982.247-26")
  {
    DigitsCpfErrado();
    ConferemExemplo('6');
  }

  /** A repeated digit is refused although its check digits hold. */
  lemma CpfRepetidoExemplo()
    ensures !ValidarCpf("111.111.111-11")
  {
    assert "111.111.111-11" == "111" + "." + "111" + "." + "111" + "-" + "11";
    DigitsCpfPontuado("111", "111", "111", "11");
    assert "111" + "111" + "111" + "11" == "11111111111";
    assert "11111111111" == CpfsInvalidos[1];
  }

  /** `formatar_cpf`: only the digits. */
  function FormatarCpf(cpf: string): (r: string)
    ensures AllDigits(r)
  {
    if cpf == [] then [] else Digits(cpf)
  }

  /** Formatting keeps the digit sequence, is idempotent and does not change
      whether the CPF is valid. */
  lemma FormatarCpfPropriedades(cpf: string)
    ensures Digits(FormatarCpf(cpf)) == Digits(cpf)
    ensures FormatarCpf(FormatarCpf(cpf)) == FormatarCpf(cpf)
    ensures ValidarCpf(FormatarCpf(cpf)) == ValidarCpf(cpf)
  {
    DigitsIdempotent(cpf);
    if cpf != [] && Digits(cpf) == [] {
      assert FormatarCpf(cpf) == [];
    }
  }

  // ---------------------------------------------------------------------------
  // Phone
  // ---------------------------------------------------------------------------

  /** `validar_telefone`: area code plus number, 10 or 11 digits. */
  function ValidarTelefone(telefone: string): bool
  {
    if telefone == [] then false
    else |Digits(telefone)| == 10 || |Digits(telefone)| == 11
  }

  /** `formatar_telefone`: (DD)NNNNN-NNNN for a mobile number, (DD)NNNN-NNNN
      for a landline, anything else unchanged. */
  function FormatarTelefone(telefone: string): string
  {
    if telefone == [] then []
    else
      var n := Digits(telefone);
      if |n| == 11 then "(" + n[..2] + ")" + n[2..7] + "-" + n[7..]
      else if |n| == 10 then "(" + n[..2] + ")" + n[2..6] + "-" + n[6..]
      else telefone
  }

  /** The digits of a phone mask: the punctuation adds none. */
  lemma DigitsMascaraTelefone(n: string, k: nat)
    requires AllDigits(n) && 2 <= k <= |n|
    ensures Digits("(" + n[..2] + ")" + n[2..k] + "-" + n[k..]) == n
  {
    var a, b, c := n[..2], n[2..k], n[k..];
    assert Digits("(") == [] && Digits(")") == [] && Digits("-") == [];
    assert Digits("(" + a) == a by {
      assert "(" + a == [] + "(" + a;
      DigitsAposSeparador([], "(", a);
    }
    assert Digits("(" + a + ")" + b) == a + b by {
      DigitsAposSeparador("(" + a, ")", b);
    }
    assert Digits("(" + a + ")" + b + "-" + c) == a + b + c by {
      DigitsAposSeparador("(" + a + ")" + b, "-", c);
    }
    assert a + b + c == n;
  }

  /** Formatting a phone keeps its digits, gives 14 or 13 characters for 11 or
      10 digits, leaves every other input alone, is idempotent and keeps
      validity. */
  lemma FormatarTelefonePropriedades(telefone: string)
    ensures Digits(FormatarTelefone(telefone)) == Digits(telefone)
    ensures |Digits(telefone)| == 11 ==> |FormatarTelefone(telefone)| == 14
    ensures |Digits(telefone)| == 10 ==> |FormatarTelefone(telefone)| == 13
    ensures |Digits(telefone)| != 10 && |Digits(telefone)| != 11 ==> FormatarTelefone(telefone) == telefone
    ensures FormatarTelefone(FormatarTelefone(telefone)) == FormatarTelefone(telefone)
    ensures ValidarTelefone(FormatarTelefone(telefone)) == ValidarTelefone(telefone)
    ensures ValidarTelefone(telefone) <==> 10 <= |Digits(telefone)| <= 11
  {
    var n := Digits(telefone);
    var r := FormatarTelefone(telefone);
    if telefone == [] {
      assert n == [];
    } else if |n| == 11 {
      DigitsMascaraTelefone(n, 7);
      assert r != [];
    } else if |n| == 10 {
      DigitsMascaraTelefone(n, 6);
      assert r != [];
    }
  }

  // ---------------------------------------------------------------------------
  // E-mail
  // ---------------------------------------------------------------------------

  predicate LetraAscii(c: char) { 'a' <= c <= 'z' || 'A' <= c <= 'Z' }

  /** The class `[a-zA-Z0-9._%+-]` of the local part. */
  predicate CharLocal(c: char)
  {
    LetraAscii(c) || IsDigit(c) || c == '.' || c == '_' || c == '%' || c == '+' || c == '-'
  }

  /** The class `[a-zA-Z0-9.-]` of the domain. */
  predicate CharDominio(c: char) { LetraAscii(c) || IsDigit(c) || c == '.' || c == '-' }

  /** What the pattern must span: `$` also matches just before one final newline. */
  function CorpoEmail(s: string): string
  {
    if |s| > 0 && s[|s| - 1] == '\n' then s[..|s| - 1] else s
  }

  /** `b` reads as local@domain.tld with the '@' at `i` and the last dot at `j`:
      a non-empty local part, a non-empty domain and a top-level domain of at
      least two ASCII letters. */
  predicate FormaEmail(b: string, i: int, j: int)
  {
    && 0 < i && i + 1 < j && j + 2 < |b|
    && b[i] == '@' && b[j] == '.'
    && (forall k :: 0 <= k < i ==> CharLocal(b[k]))
    && (forall k :: i < k < j ==> CharDominio(b[k]))
    && (forall k :: j < k < |b| ==> LetraAscii(b[k]))
  }

  /** `re.match(r'^[a-zA-Z0-9._%+-]+@[a-zA-Z0-9.-]+\.[a-zA-Z]{2,}$', s)`,
      decided by taking the first '@' and the last dot after it. */
  function CasaPadraoEmail(s: string): bool
  {
    var b := CorpoEmail(s);
    var i := IndexOf(b, '@');
    if i == |b| then false
    else
      var j := i + 1 + LastIndexOf(b[i + 1..], '.');
      FormaEmail(b, i, j)
  }

  /** The decision agrees with the pattern: some split of the string into
      local part, '@', domain, dot and top-level domain fits the classes. */
  lemma CasaPadraoEmailSse(s: string)
    ensures CasaPadraoEmail(s) <==> exists i, j :: FormaEmail(CorpoEmail(s), i, j)
  {
    var b := CorpoEmail(s);
    var i := IndexOf(b, '@');
    if i < |b| {
      var j := i + 1 + LastIndexOf(b[i + 1..], '.');
      if CasaPadraoEmail(s) {
        assert FormaEmail(b, i, j);
      }
    }
    if exists i', j' :: FormaEmail(b, i', j') {
      var i', j' :| FormaEmail(b, i', j');
      assert i == i' by {
        assert forall k :: 0 <= k < i' ==> b[k] != '@' by {
          forall k | 0 <= k < i' ensures b[k] != '@' { assert CharLocal(b[k]); }
        }
      }
      var resto := b[i + 1..];
      var l := LastIndexOf(resto, '.');
      assert resto[j' - i - 1] == '.';
      assert l == j' - i - 1 by {
        forall k | j' - i - 1 < k < |resto| ensures resto[k] != '.' {
          assert resto[k] == b[i + 1 + k];
          assert LetraAscii(b[i + 1 + k]);
        }
      }
    }
  }

  /** `validar_email`. */
  function ValidarEmail(email: string): bool
  {
    if email == [] then false else CasaPadraoEmail(email)
  }

  /** The empty-string guard adds nothing: the pattern needs five characters. */
  lemma ValidarEmailPadrao(email: string)
    ensures ValidarEmail(email) == CasaPadraoEmail(email)
    ensures ValidarEmail(email) ==> |email| >= 5
  {
    CasaPadraoEmailSse(email);
    if ValidarEmail(email) {
      var i, j :| FormaEmail(CorpoEmail(email), i, j);
    }
    if email == [] {
      assert CorpoEmail(email) == [];
    }
  }

  /** One final newline does not change the verdict, as `$` matches before it. */
  lemma EmailQuebraFinal(email: string)
    requires email != [] && email[|email| - 1] != '\n'
    ensures ValidarEmail(email + "\n") == ValidarEmail(email)
  {
    assert CorpoEmail(email + "\n") == email;
    assert CorpoEmail(email) == email;
  }

  /** A string that has the shape, and no final newline to drop, is accepted. */
  lemma FormaAceita(email: string, i: int, j: int)
    requires email != [] && email[|email| - 1] != '\n'
    requires FormaEmail(email, i, j)
    ensures ValidarEmail(email)
  {
    assert CorpoEmail(email) == email;
    CasaPadraoEmailSse(email);
  }

  /** The example address has the shape, with the '@' at 3 and the dot at 11. */
  lemma FormaEmailExemplo()
    ensures FormaEmail("ana@exemplo.com", 3, 11)
  {
    var s := "ana@exemplo.com";
    assert forall k :: 0 <= k < 3 ==> LetraAscii(s[k]);
    assert forall k :: 3 < k < 11 ==> LetraAscii(s[k]);
    assert forall k :: 11 < k < 15 ==> LetraAscii(s[k]);
  }

  /** An address the pattern takes, with and without a final newline. */
  lemma EmailsAceitosExemplo()
    ensures ValidarEmail("ana@exemplo.com") && ValidarEmail("ana@exemplo.com\n")
  {
    FormaEmailExemplo();
    FormaAceita("ana@exemplo.com", 3, 11);
    EmailQuebraFinal("ana@exemplo.com");
    ComQuebraExemplo();
  }

  lemma ComQuebraExemplo()
    ensures "ana@exemplo.com" + "\n" == "ana@exemplo.com\n"
  {
    assert ("ana@exemplo.com" + "\n")[15] == '\n';
  }

  /** A string whose dots all sit among its last two characters (and that does
      not end in a newline) leaves no room for a two-letter top-level domain. */
  lemma SemEspacoParaDominio(s: string)
    requires |s| >= 2 && s[|s| - 1] != '\n'
    requires forall k :: 0 <= k < |s| - 2 ==> s[k] != '.'
    ensures !ValidarEmail(s)
  {
    assert CorpoEmail(s) == s;
  }

  /** An address without a top-level domain is refused. */
  lemma EmailSemDominioExemplo()
    ensures !ValidarEmail("ana@exemplo")
  {
    SemEspacoParaDominio("ana@exemplo");
  }

  /** A one-letter top-level domain is refused. */
  lemma EmailDominioCurtoExemplo()
    ensures !ValidarEmail("ana@exemplo.c")
  {
    SemEspacoParaDominio("ana@exemplo.c");
  }

  /** An empty local part is refused. */
  lemma EmailSemLocalExemplo()
    ensures !ValidarEmail("@exemplo.com")
  {
    CasaPadraoEmailSse("@exemplo.com");
  }

  // ---------------------------------------------------------------------------
  // The user record
  // ---------------------------------------------------------------------------

  /** The `tipo_usuario_enum` column. */
  datatype TipoUsuario = Cliente | Admin | Entregador

  /** Thirty minutes, the lock `incrementar_tentativas_login` sets. */
  const DuracaoBloqueio: int := 30 * 60

  /** Failed logins from which the account is locked. */
  const MaxTentativas: int := 5

  const MinSenha: nat := 6

  datatype ErroSenha = SenhaVazia | SenhaCurta

  /** The columns the core reads or writes. `cpf`, `telefone` and `senhaHash`
      stay None on a fresh object until something assigns them. */
  datatype DadosUsuario = DadosUsuario(
    nome: string,
    sobrenome: Option<string>,
    cpf: Option<string>,
    telefone: Option<string>,
    email: string,
    senhaHash: Option<string>,
    tipoUsuario: TipoUsuario,
    ativo: bool,
    tentativasLogin: int,
    bloqueadoAte: Option<int>)
  {
    predicate IsAdmin() { tipoUsuario == Admin }
    predicate IsEntregador() { tipoUsuario == Entregador }
    predicate IsCliente() { tipoUsuario == Cliente }

    /** `set_senha`, with the hash function as a parameter. */
    function SetSenha(senha: string, hash: string -> string): Result<DadosUsuario, ErroSenha>
    {
      if senha == [] then Err(SenhaVazia)
      else if |senha| < MinSenha then Err(SenhaCurta)
      else Ok(this.(senhaHash := Some(hash(senha))))
    }

    /** `check_senha`, with werkzeug's checker as the predicate `confere(hash, senha)`. */
    predicate CheckSenha(senha: string, confere: (string, string) -> bool)
    {
      senha != [] && senhaHash.Some? && senhaHash.value != [] && confere(senhaHash.value, senha)
    }

    /** `incrementar_tentativas_login` at time `agora`. */
    function IncrementarTentativasLogin(agora: int): DadosUsuario
    {
      var t := tentativasLogin + 1;
      this.(tentativasLogin := t, bloqueadoAte := if t >= MaxTentativas then Some(agora + DuracaoBloqueio) else bloqueadoAte)
    }

    /** `resetar_tentativas_login`. */
    function ResetarTentativasLogin(): DadosUsuario
    {
      this.(tentativasLogin := 0, bloqueadoAte := None)
    }

    /** `esta_bloqueado` at time `agora`: the answer and the state it leaves,
        since an expired lock is cleared on the way. */
    function EstaBloqueado(agora: int): (bool, DadosUsuario)
    {
      if bloqueadoAte.None? then (false, this)
      else if agora > bloqueadoAte.value then (false, this.(bloqueadoAte := None, tentativasLogin := 0))
      else (true, this)
    }
  }

  /** Exactly one role predicate holds. */
  lemma PapeisExclusivos(u: DadosUsuario)
    ensures u.IsAdmin() || u.IsEntregador() || u.IsCliente()
    ensures !(u.IsAdmin() && u.IsEntregador()) && !(u.IsAdmin() && u.IsCliente()) && !(u.IsEntregador() && u.IsCliente())
  {
  }

  /** The setter refuses an empty or short password and otherwise stores the
      hash; the checker accepts that password whenever `confere` recognises
      its own hashes, and never accepts an empty one. */
  lemma SenhaIdaEVolta(u: DadosUsuario, senha: string, outra: string, hash: string -> string,
                       confere: (string, string) -> bool)
    requires forall s :: hash(s) != [] && confere(hash(s), s)
    ensures u.SetSenha(senha, hash).Ok? <==> |senha| >= MinSenha
    ensures u.SetSenha(senha, hash).Ok? ==>
      && u.SetSenha(senha, hash).value.CheckSenha(senha, confere)
      && u.SetSenha(senha, hash).value == u.(senhaHash := Some(hash(senha)))
    ensures !u.CheckSenha([], confere)
  {
  }

  /** One failed login: the counter grows by one, and once it reaches five the
      lock is set thirty minutes ahead of `agora`; nothing else changes. */
  lemma IncrementarEfeito(u: DadosUsuario, agora: int)
    ensures
      var v := u.IncrementarTentativasLogin(agora);
      && v.tentativasLogin == u.tentativasLogin + 1
      && (v.tentativasLogin >= 5 ==> v.bloqueadoAte == Some(agora + 1800))
      && (v.tentativasLogin < 5 ==> v.bloqueadoAte == u.bloqueadoAte)
      && v.(tentativasLogin := u.tentativasLogin, bloqueadoAte := u.bloqueadoAte) == u
  {
  }

  /** `esta_bloqueado` answers whether a lock runs until `agora` or later; when
      it answers no, no lock remains, an expired lock having been cleared with
      the counter; asking again at the same time gives the same answer and state. */
  lemma EstaBloqueadoEfeito(u: DadosUsuario, agora: int)
    ensures u.EstaBloqueado(agora).0 <==> u.bloqueadoAte.Some? && agora <= u.bloqueadoAte.value
    ensures u.EstaBloqueado(agora).0 ==> u.EstaBloqueado(agora).1 == u
    ensures !u.EstaBloqueado(agora).0 ==> u.EstaBloqueado(agora).1.bloqueadoAte.None?
    ensures u.bloqueadoAte.Some? && agora > u.bloqueadoAte.value ==>
      u.EstaBloqueado(agora).1 == u.(bloqueadoAte := None, tentativasLogin := 0)
    ensures u.EstaBloqueado(agora).1.EstaBloqueado(agora) == u.EstaBloqueado(agora)
  {
  }

  /** After a reset no lock holds at any time. */
  lemma ResetarDesbloqueia(u: DadosUsuario, agora: int)
    ensures u.ResetarTentativasLogin().tentativasLogin == 0
    ensures !u.ResetarTentativasLogin().EstaBloqueado(agora).0
  {
  }

  /** From a clean account, four failures leave it unlocked; the fifth, at
      time `t5`, locks it up to and including `t5 + 1800`, and a query after
      that unlocks it and zeroes the counter. */
  lemma CincoFalhasBloqueiam(u: DadosUsuario, t1: int, t2: int, t3: int, t4: int, t5: int, agora: int)
    requires u.tentativasLogin == 0 && u.bloqueadoAte.None?
    ensures
      var q := u.IncrementarTentativasLogin(t1).IncrementarTentativasLogin(t2)
                .IncrementarTentativasLogin(t3).IncrementarTentativasLogin(t4);
      && !q.EstaBloqueado(agora).0
      && (q.IncrementarTentativasLogin(t5).EstaBloqueado(agora).0 <==> agora <= t5 + DuracaoBloqueio)
      && (agora > t5 + DuracaoBloqueio ==> q.IncrementarTentativasLogin(t5).EstaBloqueado(agora).1.tentativasLogin == 0)
  {
  }

  // ---------------------------------------------------------------------------
  // The user object
  // ---------------------------------------------------------------------------

  class Usuario {
    var nome: string
    var sobrenome: Option<string>
    var cpf: Option<string>
    var telefone: Option<string>
    var email: string
    var senhaHash: Option<string>
    var tipoUsuario: TipoUsuario
    var ativo: bool
    var tentativasLogin: int
    var bloqueadoAte: Option<int>

    function Estado(): DadosUsuario
      reads this
    {
      DadosUsuario(nome, sobrenome, cpf, telefone, email, senhaHash, tipoUsuario, ativo,
                   tentativasLogin, bloqueadoAte)
    }

    /** `Usuario(nome=..., email=..., tipo_usuario=..., ativo=...)`, the other
        columns at their defaults. */
    constructor (nome: string, email: string, tipo: TipoUsuario, ativo: bool)
      ensures Estado() == DadosUsuario(nome, None, None, None, email, None, tipo, ativo, 0, None)
    {
      this.nome := nome;
      this.email := email;
      tipoUsuario := tipo;
      this.ativo := ativo;
      sobrenome, cpf, telefone, senhaHash := None, None, None, None;
      tentativasLogin, bloqueadoAte := 0, None;
    }

    method SetSenha(senha: string, hash: string -> string) returns (r: Outcome<ErroSenha>)
      modifies this
      ensures Efeito(r, old(Estado()), Estado(), old(Estado()).SetSenha(senha, hash))
    {
      if senha == [] {
        return Fail(SenhaVazia);
      }
      if |senha| < MinSenha {
        return Fail(SenhaCurta);
      }
      senhaHash := Some(hash(senha));
      r := Pass;
    }

    method IncrementarTentativasLogin(agora: int)
      modifies this
      ensures Estado() == old(Estado()).IncrementarTentativasLogin(agora)
    {
      tentativasLogin := tentativasLogin + 1;
      if tentativasLogin >= MaxTentativas {
        bloqueadoAte := Some(agora + DuracaoBloqueio);
      }
    }

    method ResetarTentativasLogin()
      modifies this
      ensures Estado() == old(Estado()).ResetarTentativasLogin()
    {
      tentativasLogin := 0;
      bloqueadoAte := None;
    }

    method EstaBloqueado(agora: int) returns (b: bool)
      modifies this
      ensures (b, Estado()) == old(Estado()).EstaBloqueado(agora)
    {
      if bloqueadoAte.None? {
        return false;
      }
      if agora > bloqueadoAte.value {
        bloqueadoAte := None;
        tentativasLogin := 0;
        return false;
      }
      return true;
    }
  }
}
