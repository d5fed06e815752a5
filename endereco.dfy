/** The address (models/endereco.py, class Endereco): CEP and state-code
    validation, CEP formatting and the two printable forms of an address.
    Coordinates are kept as opaque integers. */
module Enderecos {
  import opened Base
  import opened Texto

  // ---------------------------------------------------------------------------
  // CEP
  // ---------------------------------------------------------------------------

  /** `validar_cep`: eight digits once the punctuation is removed. */
  function ValidarCep(cep: string): bool
  {
    if cep == [] then false else |Digits(cep)| == 8
  }

  /** `formatar_cep`: NNNNN-NNN for eight digits, anything else unchanged. */
  function FormatarCep(cep: string): string
  {
    if cep == [] then []
    else
      var n := Digits(cep);
      if |n| == 8 then n[..5] + "-" + n[5..] else cep
  }

  /** Formatting keeps the digits, gives the nine characters NNNNN-NNN for a
      valid CEP and leaves every other input alone; it is idempotent and
      keeps validity. */
  lemma FormatarCepPropriedades(cep: string)
    ensures Digits(FormatarCep(cep)) == Digits(cep)
    ensures ValidarCep(cep) ==>
      var r := FormatarCep(cep);
      |r| == 9 && r[5] == '-' && AllDigits(r[..5]) && AllDigits(r[6..])
    ensures !ValidarCep(cep) ==> FormatarCep(cep) == cep
    ensures FormatarCep(FormatarCep(cep)) == FormatarCep(cep)
    ensures ValidarCep(FormatarCep(cep)) == ValidarCep(cep)
    ensures ValidarCep(cep) <==> |Digits(cep)| == 8
  {
    var n := Digits(cep);
    if cep == [] {
      assert n == [];
    } else if |n| == 8 {
      var r := n[..5] + "-" + n[5..];
      DigitsConcat(n[..5] + "-", n[5..]);
      DigitsConcat(n[..5], "-");
      DigitsOfAllDigits(n[..5]);
      DigitsOfAllDigits(n[5..]);
      assert Digits("-") == [];
      assert n[..5] + n[5..] == n;
      assert r[..5] == n[..5] && r[6..] == n[5..];
    }
  }

  // ---------------------------------------------------------------------------
  // State code
  // ---------------------------------------------------------------------------

  /** The 27 federative units. */
  const EstadosValidos: seq<string> :=
    ["AC", "AL", "AP", "AM", "BA", "CE", "DF", "ES", "GO", "MA",
     "MT", "MS", "MG", "PA", "PB", "PR", "PE", "PI", "RJ", "RN",
     "RS", "RO", "RR", "SC", "SP", "SE", "TO"]

  /** `validar_estado`: two characters whose upper case is a listed code. */
  function ValidarEstado(estado: string): bool
  {
    if estado == [] || |estado| != 2 then false
    else Upper(estado) in EstadosValidos
  }

  /** The list holds 27 distinct codes of two ASCII capitals. */
  lemma EstadosValidosBemFormados()
    ensures |EstadosValidos| == 27
    ensures forall k :: 0 <= k < |EstadosValidos| ==>
      |EstadosValidos[k]| == 2 && 'A' <= EstadosValidos[k][0] <= 'Z' && 'A' <= EstadosValidos[k][1] <= 'Z'
    ensures forall k, l :: 0 <= k < l < |EstadosValidos| ==> EstadosValidos[k] != EstadosValidos[l]
  {
  }

  /** A code is accepted in upper, lower or mixed case: any two characters
      whose upper case is a listed code. */
  lemma ValidarEstadoCaixa(estado: string, sigla: string)
    requires sigla in EstadosValidos && |estado| == 2 && Upper(estado) == sigla
    ensures ValidarEstado(estado)
  {
  }

  /** Every listed code is accepted as written and in lower case. */
  lemma EstadosListadosAceitos(k: int)
    requires 0 <= k < |EstadosValidos|
    ensures ValidarEstado(EstadosValidos[k])
    ensures ValidarEstado(Lower(EstadosValidos[k]))
  {
    EstadosValidosBemFormados();
    var s := EstadosValidos[k];
    assert Upper(s) == s;
    var l := Lower(s);
    assert s == [s[0]] + [s[1]];
    LowerConcat([s[0]], [s[1]]);
    assert l == [(s[0] as int + 32) as char, (s[1] as int + 32) as char];
    assert Upper(l) == s;
  }

  /** Full names and unknown codes are refused. */
  lemma EstadosRecusados()
    ensures !ValidarEstado("Sao Paulo") && !ValidarEstado("XX") && !ValidarEstado("")
  {
    assert Upper("XX") == "XX";
  }

  // ---------------------------------------------------------------------------
  // The address record
  // ---------------------------------------------------------------------------

  datatype Endereco = Endereco(
    rua: string,
    numero: string,
    complemento: Option<string>,
    cidade: string,
    estado: string,
    cep: string,
    referencia: Option<string>,
    latitude: Option<int>,
    longitude: Option<int>)
  {
    /** The parts `endereco_completo` starts from, in order. */
    function Partes(): seq<string>
    {
      [rua, numero, complemento.GetOr(""), cidade, estado, "CEP: " + cep]
    }

    /** `endereco_completo`: the non-empty parts joined by ", ". */
    function EnderecoCompleto(): string
    {
      Join(NaoVazias(Partes()), ", ")
    }

    /** `endereco_resumido`. */
    function EnderecoResumido(): string
    {
      rua + ", " + numero + " - " + cidade + "/" + estado
    }

    /** `tem_coordenadas`. */
    predicate TemCoordenadas() { latitude.Some? && longitude.Some? }

    /** `definir_coordenadas`. */
    function DefinirCoordenadas(lat: int, lon: int): Endereco
    {
      this.(latitude := Some(lat), longitude := Some(lon))
    }
  }

  /** `[p for p in partes if p]`. */
  function NaoVazias(partes: seq<string>): (r: seq<string>)
    ensures |r| <= |partes|
    ensures forall k :: 0 <= k < |r| ==> r[k] != []
  {
    if partes == [] then []
    else
      var init := NaoVazias(partes[..|partes| - 1]);
      if partes[|partes| - 1] == [] then init else init + [partes[|partes| - 1]]
  }

  /** Filtering keeps exactly the non-empty parts, in order: it distributes
      over concatenation and keeps a run of non-empty parts whole. */
  lemma {:induction false} NaoVaziasConcat(a: seq<string>, b: seq<string>)
    ensures NaoVazias(a + b) == NaoVazias(a) + NaoVazias(b)
  {
    if b == [] {
      assert a + b == a;
    } else {
      assert (a + b)[..|a + b| - 1] == a + b[..|b| - 1];
      assert (a + b)[|a + b| - 1] == b[|b| - 1];
      NaoVaziasConcat(a, b[..|b| - 1]);
    }
  }

  lemma {:induction false} NaoVaziasTodas(partes: seq<string>)
    requires forall k :: 0 <= k < |partes| ==> partes[k] != []
    ensures NaoVazias(partes) == partes
  {
    if partes != [] {
      NaoVaziasTodas(partes[..|partes| - 1]);
    }
  }

  lemma JoinUltimo(partes: seq<string>, sep: string, x: string)
    ensures Join(partes + [x], sep) == if partes == [] then x else Join(partes, sep) + sep + x
  {
    assert (partes + [x])[..|partes|] == partes;
  }

  /** `tem_coordenadas` holds exactly when both are set, as after `definir_coordenadas`. */
  lemma CoordenadasDefinidas(e: Endereco, lat: int, lon: int)
    ensures e.TemCoordenadas() <==> e.latitude != None && e.longitude != None
    ensures e.DefinirCoordenadas(lat, lon).TemCoordenadas()
    ensures e.DefinirCoordenadas(lat, lon).(latitude := e.latitude, longitude := e.longitude) == e
  {
  }

  /** The full address always ends with the CEP part, preceded by ", "
      whenever some other part is non-empty. */
  lemma EnderecoCompletoTerminaComCep(e: Endereco)
    ensures
      var pre := NaoVazias(e.Partes()[..5]);
      e.EnderecoCompleto() == if pre == [] then "CEP: " + e.cep else Join(pre, ", ") + ", " + "CEP: " + e.cep
  {
    var p := e.Partes();
    assert p == p[..5] + ["CEP: " + e.cep];
    NaoVaziasConcat(p[..5], ["CEP: " + e.cep]);
    assert NaoVazias(["CEP: " + e.cep]) == ["CEP: " + e.cep] by {
      assert ["CEP: " + e.cep][..0] == [];
    }
    JoinUltimo(NaoVazias(p[..5]), ", ", "CEP: " + e.cep);
  }

  /** Joining five parts. */
  lemma JoinCinco(a: string, b: string, c: string, d: string, x: string, sep: string)
    ensures Join([a, b, c, d, x], sep) == a + sep + b + sep + c + sep + d + sep + x
  {
    var q := [a, b, c, d, x];
    assert q == q[..4] + [x];
    JoinUltimo(q[..4], sep, x);
    assert q[..4] == q[..3] + [d];
    JoinUltimo(q[..3], sep, d);
    assert q[..3] == q[..2] + [c];
    JoinUltimo(q[..2], sep, c);
    assert q[..2] == [a] + [b];
    JoinUltimo([a], sep, b);
  }

  /** With every part filled in, the full address lists all six parts. */
  lemma EnderecoCompletoPreenchido(e: Endereco)
    requires e.rua != [] && e.numero != [] && e.cidade != [] && e.estado != []
    requires e.complemento.Some? && e.complemento.value != []
    ensures e.EnderecoCompleto() ==
      e.rua + ", " + e.numero + ", " + e.complemento.value + ", " + e.cidade + ", " + e.estado + ", " + "CEP: " + e.cep
  {
    var p := e.Partes();
    var c := "CEP: " + e.cep;
    NaoVaziasTodas(p);
    var q := [e.rua, e.numero, e.complemento.value, e.cidade, e.estado];
    assert p == q + [c];
    JoinUltimo(q, ", ", c);
    JoinCinco(e.rua, e.numero, e.complemento.value, e.cidade, e.estado, ", ");
  }

  /** With no complement, the full address lists the five other parts. */
  lemma EnderecoCompletoSemComplemento(e: Endereco)
    requires e.rua != [] && e.numero != [] && e.cidade != [] && e.estado != []
    requires e.complemento.None?
    ensures e.EnderecoCompleto() == e.rua + ", " + e.numero + ", " + e.cidade + ", " + e.estado + ", " + "CEP: " + e.cep
  {
    var p := e.Partes();
    var c := "CEP: " + e.cep;
    var vazia: seq<string> := [[]];
    assert p == [e.rua, e.numero] + vazia + [e.cidade, e.estado, c];
    NaoVaziasConcat([e.rua, e.numero] + vazia, [e.cidade, e.estado, c]);
    NaoVaziasConcat([e.rua, e.numero], vazia);
    assert NaoVazias(vazia) == [] by { assert vazia[..0] == []; }
    NaoVaziasTodas([e.rua, e.numero]);
    NaoVaziasTodas([e.cidade, e.estado, c]);
    assert NaoVazias(p) == [e.rua, e.numero, e.cidade, e.estado, c];
    JoinCinco(e.rua, e.numero, e.cidade, e.estado, c, ", ");
  }

  /** The short form and the full one both open with "<rua>, <numero>" when
      street and number are filled in. */
  lemma EnderecoResumidoForma(e: Endereco)
    requires e.rua != [] && e.numero != []
    ensures
      var pre := e.rua + ", " + e.numero;
      && |pre| <= |e.EnderecoResumido()| && e.EnderecoResumido()[..|pre|] == pre
      && |pre| <= |e.EnderecoCompleto()| && e.EnderecoCompleto()[..|pre|] == pre
  {
    var pre := e.rua + ", " + e.numero;
    var p := e.Partes();
    assert p == [e.rua, e.numero] + p[2..];
    NaoVaziasConcat([e.rua, e.numero], p[2..]);
    NaoVaziasTodas([e.rua, e.numero]);
    var resto := NaoVazias(p[2..]);
    assert resto != [] by {
      assert p[2..] == p[2..5] + ["CEP: " + e.cep];
      NaoVaziasConcat(p[2..5], ["CEP: " + e.cep]);
      assert NaoVazias(["CEP: " + e.cep]) == ["CEP: " + e.cep] by {
        assert ["CEP: " + e.cep][..0] == [];
      }
    }
    JoinPrefixo([e.rua, e.numero], resto, ", ");
    JoinUltimo([e.rua], ", ", e.numero);
    assert [e.rua] + [e.numero] == [e.rua, e.numero];
    assert e.EnderecoCompleto() == pre + (", " + Join(resto, ", "));
    assert e.EnderecoResumido() == pre + (" - " + e.cidade + "/" + e.estado);
  }

  /** Joining a non-empty tail after a non-empty head extends the head's join. */
  lemma {:induction false} JoinPrefixo(a: seq<string>, b: seq<string>, sep: string)
    requires a != [] && b != []
    ensures Join(a + b, sep) == Join(a, sep) + sep + Join(b, sep)
    decreases |b|
  {
    if |b| == 1 {
      JoinUltimo(a, sep, b[0]);
      assert a + b == a + [b[0]];
    } else {
      var b' := b[..|b| - 1];
      var x := b[|b| - 1];
      assert a + b == (a + b') + [x];
      assert b == b' + [x];
      JoinUltimo(a + b', sep, x);
      JoinUltimo(b', sep, x);
      JoinPrefixo(a, b', sep);
    }
  }
}
