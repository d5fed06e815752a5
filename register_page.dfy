/** The sign-up page (myApp/src/app/pages/register/register.page.ts): the
    form's fields, the client-side validation, the request body built from
    them, the input masks for CPF and phone, and clearing the form. Toasts,
    the loader, navigation and the HTTP call are left out. */
module RegisterPage {
  import opened Base
  import opened Texto
  import opened Usuarios
  import opened AuthController

  /** The messages `validarCampos` can return, in the order it checks. */
  datatype ErroCampos =
    | NomeObrigatorio      // "Nome é obrigatório"
    | NomeMuitoCurto       // "Nome deve ter pelo menos 2 caracteres"
    | EmailObrigatorio     // "Email é obrigatório"
    | EmailForaDoPadrao    // "Email inválido"
    | SenhaObrigatoria     // "Senha é obrigatória"
    | SenhaMuitoCurta      // "Senha deve ter pelo menos 6 caracteres"
    | ConfirmeSenha        // "Confirme sua senha"
    | SenhasDiferentes     // "As senhas não coincidem"
    | CpfAusente           // "CPF é obrigatório"
    | CpfRecusado          // "CPF inválido"
    | TelefoneAusente      // "Telefone é obrigatório"
    | TelefoneCurto        // "Telefone inválido"

  /** The text fields of the page. */
  datatype Formulario = Formulario(
    nome: string,
    sobrenome: string,
    email: string,
    senha: string,
    confirmar: string,
    telefone: string,
    cpf: string)

  /** Digit strings are ASCII, one UTF-16 unit per character. */
  lemma {:induction false} JsLengthDigitos(s: string)
    requires AllDigits(s)
    ensures JsLength(s) == |s|
  {
    if s != [] {
      JsLengthDigitos(s[1..]);
    }
  }

  /** A field whose digits are not empty is not blank after `trim()`. */
  lemma DigitosNaoEmBranco(s: string)
    ensures Digits(s) != [] ==> JsTrim(s) != []
  {
    DigitsTrim(s, JsSpace);
  }

  // ---------------------------------------------------------------------------
  // Email
  // ---------------------------------------------------------------------------

  /** `[^\s@]`. */
  predicate CaractereEmail(c: char) { !JsSpace(c) && c != '@' }

  /** `s` matches `^[^\s@]+@[^\s@]+\.[^\s@]+$` with the '@' at `i` and the
      dot at `j`: every other character is neither whitespace nor '@'. */
  predicate FormaEmailJs(s: string, i: int, j: int)
  {
    && 0 < i && i + 1 < j && j + 1 < |s|
    && s[i] == '@' && s[j] == '.'
    && forall k :: 0 <= k < |s| && k != i ==> CaractereEmail(s[k])
  }

  /** `isValidEmail`, decided at the first '@', the only one the pattern can use. */
  function IsValidEmail(email: string): bool
  {
    var i := IndexOf(email, '@');
    && 0 < i && i + 4 <= |email|
    && (forall k :: 0 <= k < |email| && k != i ==> CaractereEmail(email[k]))
    && '.' in email[i + 2..|email| - 1]
  }

  lemma IsValidEmailSse(s: string)
    ensures IsValidEmail(s) <==> exists i, j :: FormaEmailJs(s, i, j)
  {
    var i := IndexOf(s, '@');
    if IsValidEmail(s) {
      var meio := s[i + 2..|s| - 1];
      var m :| 0 <= m < |meio| && meio[m] == '.';
      assert FormaEmailJs(s, i, i + 2 + m);
    }
    if exists i', j' :: FormaEmailJs(s, i', j') {
      var i', j' :| FormaEmailJs(s, i', j');
      assert forall k :: 0 <= k < i' ==> s[k] != '@';
      assert i == i';
      assert s[i + 2..|s| - 1][j' - i - 2] == '.';
    }
  }

  /** The client takes a one-letter top-level domain that the server refuses. */
  lemma EmailClienteMaisPermissivo()
    ensures IsValidEmail("ana@exemplo.c") && !ValidarEmail("ana@exemplo.c")
  {
    assert FormaEmailJs("ana@exemplo.c", 3, 11);
    IsValidEmailSse("ana@exemplo.c");
    EmailDominioCurtoExemplo();
  }

  // ---------------------------------------------------------------------------
  // CPF
  // ---------------------------------------------------------------------------

  /** `isValidCPF`: eleven digits outside the known-invalid list. */
  function IsValidCPF(cpf: string): bool
  {
    var d := Digits(cpf);
    if JsLength(d) != 11 then false else d !in CpfsInvalidos
  }

  /** Exactly the eleven-digit values that are not one repeated digit: no
      check-digit test. */
  lemma IsValidCPFSse(cpf: string)
    ensures IsValidCPF(cpf) <==> |Digits(cpf)| == 11 && !MesmoDigito(Digits(cpf))
  {
    JsLengthDigitos(Digits(cpf));
    CpfsInvalidosSse(Digits(cpf));
  }

  /** Every CPF the server's `validar_cpf` takes, the client takes too, but not
      the other way round. */
  lemma IsValidCPFMaisFraco(cpf: string)
    ensures ValidarCpf(cpf) ==> IsValidCPF(cpf)
    ensures IsValidCPF("529.982.247-26") && !ValidarCpf("529.982.247-26")
  {
    JsLengthDigitos(Digits(cpf));
    CpfPontuadoExemplo();
    CpfDigitoErradoExemplo();
    IsValidCPFSse("529.982.247-26");
  }

  // ---------------------------------------------------------------------------
  // validarCampos
  // ---------------------------------------------------------------------------

  /** The name checks. */
  function ErroNome(nome: string): Option<ErroCampos>
  {
    var t := JsTrim(nome);
    if t == [] then Some(NomeObrigatorio)
    else if JsLength(t) < 2 then Some(NomeMuitoCurto)
    else None
  }

  /** The email checks, on the trimmed and lower-cased value. */
  function ErroEmail(email: string): Option<ErroCampos>
  {
    var t := Lower(JsTrim(email));
    if t == [] then Some(EmailObrigatorio)
    else if !IsValidEmail(t) then Some(EmailForaDoPadrao)
    else None
  }

  /** The password and confirmation checks, on trimmed values. */
  function ErroSenha(senha: string, confirmar: string): Option<ErroCampos>
  {
    var s := JsTrim(senha);
    var c := JsTrim(confirmar);
    if s == [] then Some(SenhaObrigatoria)
    else if JsLength(s) < 6 then Some(SenhaMuitoCurta)
    else if c == [] then Some(ConfirmeSenha)
    else if s != c then Some(SenhasDiferentes)
    else None
  }

  /** The CPF checks: blank, then `isValidCPF` on the raw field. */
  function ErroCpf(cpf: string): Option<ErroCampos>
  {
    if JsTrim(cpf) == [] then Some(CpfAusente)
    else if !IsValidCPF(cpf) then Some(CpfRecusado)
    else None
  }

  /** The phone checks: blank, then fewer than ten digits. */
  function ErroTelefone(telefone: string): Option<ErroCampos>
  {
    if JsTrim(telefone) == [] then Some(TelefoneAusente)
    else if JsLength(Digits(telefone)) < 10 then Some(TelefoneCurto)
    else None
  }

  /** The first check of the list that fails. */
  function PrimeiroErro(etapas: seq<Option<ErroCampos>>): (r: Option<ErroCampos>)
    ensures r.None? <==> forall k :: 0 <= k < |etapas| ==> etapas[k].None?
    ensures r.Some? ==> exists k :: 0 <= k < |etapas| && etapas[k] == r && forall j :: 0 <= j < k ==> etapas[j].None?
  {
    if etapas == [] then None
    else if etapas[0].Some? then etapas[0]
    else
      var r := PrimeiroErro(etapas[1..]);
      assert forall k :: 1 <= k < |etapas| ==> etapas[k] == etapas[1..][k - 1];
      r
  }

  /** The checks of `validarCampos` in its order: name, email, password and
      confirmation, CPF, phone. */
  function Etapas(f: Formulario): seq<Option<ErroCampos>>
  {
    [ErroNome(f.nome), ErroEmail(f.email), ErroSenha(f.senha, f.confirmar), ErroCpf(f.cpf), ErroTelefone(f.telefone)]
  }

  /** `validarCampos`: None is `{ valido: true }`, Some(e) the first message. */
  function ValidarCampos(f: Formulario): Option<ErroCampos>
  {
    PrimeiroErro(Etapas(f))
  }

  /** What a form must satisfy, stated without the order of the checks. */
  predicate Aceito(f: Formulario)
  {
    && JsLength(JsTrim(f.nome)) >= 2
    && IsValidEmail(Lower(JsTrim(f.email)))
    && JsLength(JsTrim(f.senha)) >= 6
    && JsTrim(f.confirmar) == JsTrim(f.senha)
    && |Digits(f.cpf)| == 11 && !MesmoDigito(Digits(f.cpf))
    && |Digits(f.telefone)| >= 10
  }

  /** The five checks pass exactly when each of them does, and otherwise
      the first failing one decides. */
  lemma PrimeiroErroCinco(a: Option<ErroCampos>, b: Option<ErroCampos>, c: Option<ErroCampos>,
                          d: Option<ErroCampos>, e: Option<ErroCampos>)
    ensures PrimeiroErro([a, b, c, d, e]).None? <==> a.None? && b.None? && c.None? && d.None? && e.None?
    ensures PrimeiroErro([a, b, c, d, e]) ==
      if a.Some? then a else if b.Some? then b else if c.Some? then c else if d.Some? then d else e
  {
    assert [a, b, c, d, e][1..] == [b, c, d, e];
    assert [b, c, d, e][1..] == [c, d, e];
    assert [c, d, e][1..] == [d, e];
    assert [d, e][1..] == [e];
    assert [e][1..] == [];
    assert PrimeiroErro([e]) == e;
    assert PrimeiroErro([d, e]) == if d.Some? then d else e;
    assert PrimeiroErro([c, d, e]) == if c.Some? then c else PrimeiroErro([d, e]);
    assert PrimeiroErro([b, c, d, e]) == if b.Some? then b else PrimeiroErro([c, d, e]);
  }

  lemma ErroNomeSse(nome: string)
    ensures ErroNome(nome).None? <==> JsLength(JsTrim(nome)) >= 2
  {
  }

  lemma ErroEmailSse(email: string)
    ensures ErroEmail(email).None? <==> IsValidEmail(Lower(JsTrim(email)))
  {
  }

  lemma ErroSenhaSse(senha: string, confirmar: string)
    ensures ErroSenha(senha, confirmar).None? <==>
      JsLength(JsTrim(senha)) >= 6 && JsTrim(confirmar) == JsTrim(senha)
  {
  }

  lemma ErroCpfSse(cpf: string)
    ensures ErroCpf(cpf).None? <==> |Digits(cpf)| == 11 && !MesmoDigito(Digits(cpf))
  {
    IsValidCPFSse(cpf);
    DigitosNaoEmBranco(cpf);
  }

  lemma ErroTelefoneSse(telefone: string)
    ensures ErroTelefone(telefone).None? <==> |Digits(telefone)| >= 10
  {
    JsLengthDigitos(Digits(telefone));
    DigitosNaoEmBranco(telefone);
  }

  /** The form is valid exactly when every requirement holds; in particular
      a name of two or more characters, a password of six or more equal to its
      confirmation, and a phone of at least ten digits with no upper bound. */
  lemma ValidarCamposSse(f: Formulario)
    ensures ValidarCampos(f).None? <==> Aceito(f)
  {
    ErroNomeSse(f.nome);
    ErroEmailSse(f.email);
    ErroSenhaSse(f.senha, f.confirmar);
    ErroCpfSse(f.cpf);
    ErroTelefoneSse(f.telefone);
    PrimeiroErroCinco(ErroNome(f.nome), ErroEmail(f.email), ErroSenha(f.senha, f.confirmar), ErroCpf(f.cpf), ErroTelefone(f.telefone));
  }

  /** Which messages each group of checks can give. */
  lemma MensagensPorGrupo(f: Formulario)
    ensures ErroNome(f.nome) in {None, Some(NomeObrigatorio), Some(NomeMuitoCurto)}
    ensures ErroEmail(f.email) in {None, Some(EmailObrigatorio), Some(EmailForaDoPadrao)}
    ensures ErroSenha(f.senha, f.confirmar) in {None, Some(SenhaObrigatoria), Some(SenhaMuitoCurta), Some(ConfirmeSenha), Some(SenhasDiferentes)}
    ensures ErroCpf(f.cpf) in {None, Some(CpfAusente), Some(CpfRecusado)}
    ensures ErroTelefone(f.telefone) in {None, Some(TelefoneAusente), Some(TelefoneCurto)}
  {
  }

  lemma CpfRecusadoSse(cpf: string)
    ensures ErroCpf(cpf) == Some(CpfRecusado) <==>
      JsTrim(cpf) != [] && (|Digits(cpf)| != 11 || MesmoDigito(Digits(cpf)))
  {
    IsValidCPFSse(cpf);
  }

  lemma TelefoneCurtoSse(telefone: string)
    ensures ErroTelefone(telefone) == Some(TelefoneCurto) <==>
      JsTrim(telefone) != [] && |Digits(telefone)| < 10
  {
    JsLengthDigitos(Digits(telefone));
  }

  /** "CPF inválido" comes exactly when the earlier checks pass and a
      non-blank CPF does not have eleven digits or repeats one digit. */
  lemma ValidarCamposCpfRecusado(f: Formulario)
    ensures ValidarCampos(f) == Some(CpfRecusado) <==>
      && ErroNome(f.nome).None? && ErroEmail(f.email).None? && ErroSenha(f.senha, f.confirmar).None?
      && JsTrim(f.cpf) != [] && (|Digits(f.cpf)| != 11 || MesmoDigito(Digits(f.cpf)))
  {
    var a, b, c, d, e := ErroNome(f.nome), ErroEmail(f.email), ErroSenha(f.senha, f.confirmar), ErroCpf(f.cpf), ErroTelefone(f.telefone);
    PrimeiroErroCinco(a, b, c, d, e);
    MensagensPorGrupo(f);
    CpfRecusadoSse(f.cpf);
  }

  /** "Telefone inválido" comes exactly when everything else passes and a
      non-blank phone has fewer than ten digits. */
  lemma ValidarCamposTelefoneCurto(f: Formulario)
    ensures ValidarCampos(f) == Some(TelefoneCurto) <==>
      && ErroNome(f.nome).None? && ErroEmail(f.email).None? && ErroSenha(f.senha, f.confirmar).None?
      && ErroCpf(f.cpf).None? && JsTrim(f.telefone) != [] && |Digits(f.telefone)| < 10
  {
    var a, b, c, d, e := ErroNome(f.nome), ErroEmail(f.email), ErroSenha(f.senha, f.confirmar), ErroCpf(f.cpf), ErroTelefone(f.telefone);
    PrimeiroErroCinco(a, b, c, d, e);
    MensagensPorGrupo(f);
    TelefoneCurtoSse(f.telefone);
  }

  // ---------------------------------------------------------------------------
  // The request body
  // ---------------------------------------------------------------------------

  /** The body `register` sends: trimmed name and password, trimmed and
      lower-cased email, and CPF and phone digits-only when not blank. The
      optional `sobrenome` is also sent but the server reads no such key. */
  function DadosEnviados(f: Formulario): DadosRegistro
  {
    DadosRegistro(
      Some(JsTrim(f.nome)),
      Some(Lower(JsTrim(f.email))),
      Some(JsTrim(f.senha)),
      if JsTrim(f.cpf) != [] then Some(Digits(f.cpf)) else None,
      if JsTrim(f.telefone) != [] then Some(Digits(f.telefone)) else None)
  }

  /** `register` up to the request: a failed validation sends nothing. */
  function Envio(f: Formulario): Result<DadosRegistro, ErroCampos>
  {
    match ValidarCampos(f)
    case Some(e) => Err(e)
    case None => Ok(DadosEnviados(f))
  }

  /** A body that is sent carries a lower-case email the client pattern
      takes, a password of at least six units, eleven CPF digits that are not
      one repeated digit and at least ten phone digits, all digits-only. */
  lemma EnvioAceito(f: Formulario)
    requires Envio(f).Ok?
    ensures
      var d := Envio(f).value;
      && d.email.Some? && Lower(d.email.value) == d.email.value && IsValidEmail(d.email.value)
      && d.senha.Some? && JsLength(d.senha.value) >= 6
      && d.cpf.Some? && AllDigits(d.cpf.value) && |d.cpf.value| == 11 && !MesmoDigito(d.cpf.value)
      && d.telefone.Some? && AllDigits(d.telefone.value) && |d.telefone.value| >= 10
  {
    ValidarCamposSse(f);
    LowerIdempotent(JsTrim(f.email));
    DigitosNaoEmBranco(f.cpf);
    DigitosNaoEmBranco(f.telefone);
  }

  /** A phone of more than eleven digits passes the page but the server's
      registration refuses the body it sends. */
  lemma TelefoneLongoRecusadoNoServidor(f: Formulario, emails: set<string>, cpfs: set<string>, hash: string -> string)
    requires Envio(f).Ok? && |Digits(f.telefone)| > 11
    ensures Registrar(Envio(f).value, emails, cpfs, hash).Err?
  {
    var d := Envio(f).value;
    EnvioAceito(f);
    DigitsIdempotent(f.telefone);
    assert Campo(d.telefone) == Digits(f.telefone);
    assert !ValidarTelefone(Digits(Campo(d.telefone)));
    RegistrarSse(d, emails, cpfs, hash);
  }

  // ---------------------------------------------------------------------------
  // Input masks
  // ---------------------------------------------------------------------------

  /** `n` digits start at `r`. */
  predicate RunDigitos(s: string, r: int, n: nat)
  {
    0 <= r && r + n <= |s| && AllDigits(s[r..r + n])
  }

  /** The leftmost position from `p` on where `n` consecutive digits start,
      `|s|` when there is none. */
  function InicioDigitos(s: string, n: nat, p: nat): (r: nat)
    requires n > 0
    ensures r <= |s|
    ensures r < |s| ==> RunDigitos(s, r, n)
    decreases |s| - p
  {
    if p + n > |s| then |s|
    else if AllDigits(s[p..p + n]) then p
    else InicioDigitos(s, n, p + 1)
  }

  /** A run at `q` with none between `p` and `q` is the one found. */
  lemma {:induction false} InicioDigitosEm(s: string, n: nat, p: nat, q: nat)
    requires n > 0 && p <= q && RunDigitos(s, q, n)
    requires forall r :: p <= r < q ==> !RunDigitos(s, r, n)
    ensures InicioDigitos(s, n, p) == q
    decreases q - p
  {
    if p < q {
      assert !RunDigitos(s, p, n);
      InicioDigitosEm(s, n, p + 1, q);
    }
  }

  /** `replace(/(\d{3})(\d)/, '$1.$2')`: a dot after the first three digits of
      the leftmost run of four. */
  function PontoAposTres(s: string): string
  {
    var p := InicioDigitos(s, 4, 0);
    if p < |s| then s[..p + 3] + "." + s[p + 3..] else s
  }

  /** `replace(/(\d{3})(\d{1,2})$/, '$1-$2')`: the match must end the string,
      and the leftmost one takes two final digits when the last five
      characters are digits, otherwise one when the last four are. */
  function HifenFinalCpf(s: string): string
  {
    if |s| >= 5 && AllDigits(s[|s| - 5..]) then s[..|s| - 2] + "-" + s[|s| - 2..]
    else if |s| >= 4 && AllDigits(s[|s| - 4..]) then s[..|s| - 1] + "-" + s[|s| - 1..]
    else s
  }

  /** The three replacements of `formatarCPF` on the digits. */
  function MascararCpf(d: string): string
  {
    HifenFinalCpf(PontoAposTres(PontoAposTres(d)))
  }

  /** `replace(/^(\d{2})(\d)/g, '($1) $2')`: only at the start. */
  function DddTelefone(s: string): string
  {
    if |s| >= 3 && AllDigits(s[..3]) then "(" + s[..2] + ") " + s[2..] else s
  }

  /** `replace(/(\d)(\d{4})$/, '$1-$2')`: a hyphen before the last four digits
      when the last five characters are digits. */
  function HifenFinalTelefone(s: string): string
  {
    if |s| >= 5 && AllDigits(s[|s| - 5..]) then s[..|s| - 4] + "-" + s[|s| - 4..] else s
  }

  function MascararTelefone(d: string): string
  {
    HifenFinalTelefone(DddTelefone(d))
  }

  /** Inserting a non-digit keeps the digits. */
  lemma DigitsInserir(s: string, k: nat, sep: string)
    requires k <= |s| && Digits(sep) == []
    ensures Digits(s[..k] + sep + s[k..]) == Digits(s)
  {
    DigitsConcat(s[..k] + sep, s[k..]);
    DigitsConcat(s[..k], sep);
    DigitsConcat(s[..k], s[k..]);
    assert s[..k] + s[k..] == s;
  }

  lemma PontoAposTresDigitos(s: string)
    ensures Digits(PontoAposTres(s)) == Digits(s)
  {
    var p := InicioDigitos(s, 4, 0);
    if p < |s| {
      assert Digits(".") == [];
      DigitsInserir(s, p + 3, ".");
    }
  }

  lemma HifenFinalCpfDigitos(s: string)
    ensures Digits(HifenFinalCpf(s)) == Digits(s)
  {
    assert Digits("-") == [];
    if |s| >= 5 && AllDigits(s[|s| - 5..]) {
      DigitsInserir(s, |s| - 2, "-");
    } else if |s| >= 4 && AllDigits(s[|s| - 4..]) {
      DigitsInserir(s, |s| - 1, "-");
    }
  }

  /** The CPF mask keeps the digits, so masking an already masked value
      changes nothing. */
  lemma MascararCpfDigitos(d: string)
    ensures Digits(MascararCpf(d)) == Digits(d)
    ensures AllDigits(d) ==> MascararCpf(Digits(MascararCpf(d))) == MascararCpf(d)
  {
    PontoAposTresDigitos(d);
    PontoAposTresDigitos(PontoAposTres(d));
    HifenFinalCpfDigitos(PontoAposTres(PontoAposTres(d)));
    if AllDigits(d) {
      DigitsOfAllDigits(d);
    }
  }

  /** The area-code step of the phone mask keeps the digits. */
  lemma DddTelefoneDigitos(d: string)
    ensures Digits(DddTelefone(d)) == Digits(d)
  {
    if |d| >= 3 && AllDigits(d[..3]) {
      assert DddTelefone(d) == "(" + (d[..2] + ") " + d[2..]);
      DigitsConcat("(", d[..2] + ") " + d[2..]);
      assert Digits("(") == [] && Digits(") ") == [];
      DigitsInserir(d, 2, ") ");
    }
  }

  /** The hyphen step of the phone mask keeps the digits. */
  lemma HifenFinalTelefoneDigitos(a: string)
    ensures Digits(HifenFinalTelefone(a)) == Digits(a)
  {
    if |a| >= 5 && AllDigits(a[|a| - 5..]) {
      assert Digits("-") == [];
      DigitsInserir(a, |a| - 4, "-");
    }
  }

  /** The phone mask keeps the digits, so masking an already masked value
      changes nothing. */
  lemma MascararTelefoneDigitos(d: string)
    ensures Digits(MascararTelefone(d)) == Digits(d)
    ensures AllDigits(d) ==> MascararTelefone(Digits(MascararTelefone(d))) == MascararTelefone(d)
  {
    DddTelefoneDigitos(d);
    HifenFinalTelefoneDigitos(DddTelefone(d));
    if AllDigits(d) {
      DigitsOfAllDigits(d);
    }
  }

  /** On four or more digits the first replacement puts a dot after three. */
  lemma PontoAposTresInicio(d: string)
    requires AllDigits(d) && |d| >= 4
    ensures PontoAposTres(d) == d[..3] + "." + d[3..]
  {
    InicioDigitosEm(d, 4, 0, 0);
  }

  /** After that dot, seven or more digits get a second dot three later. */
  lemma PontoAposTresSegundo(x: string, y: string)
    requires |x| == 3 && AllDigits(x) && AllDigits(y) && |y| >= 4
    ensures PontoAposTres(x + "." + y) == x + "." + y[..3] + "." + y[3..]
  {
    var a := x + "." + y;
    assert a[3] == '.';
    forall r | 0 <= r < 4 ensures !RunDigitos(a, r, 4) {
      assert a[r..r + 4][3 - r] == '.';
    }
    assert a[4..8] == y[..4];
    InicioDigitosEm(a, 4, 0, 4);
    assert a[..7] == x + "." + y[..3];
    assert a[7..] == y[3..];
  }

  /** On eleven digits the CPF mask gives NNN.NNN.NNN-NN. */
  lemma MascararCpfOnze(d: string)
    requires AllDigits(d) && |d| == 11
    ensures MascararCpf(d) == d[..3] + "." + d[3..6] + "." + d[6..9] + "-" + d[9..]
  {
    PontoAposTresInicio(d);
    var y := d[3..];
    PontoAposTresSegundo(d[..3], y);
    var b := d[..3] + "." + y[..3] + "." + y[3..];
    assert y[..3] == d[3..6] && y[3..] == d[6..];
    assert b[|b| - 5..] == d[6..];
    assert b[..|b| - 2] == d[..3] + "." + d[3..6] + "." + d[6..9];
    assert b[|b| - 2..] == d[9..];
  }

  /** On eleven (or ten) digits the phone mask gives (DD) NNNNN-NNNN (or
      (DD) NNNN-NNNN). */
  lemma MascararTelefoneCelular(d: string)
    requires AllDigits(d) && 10 <= |d| <= 11
    ensures MascararTelefone(d) == "(" + d[..2] + ") " + d[2..|d| - 4] + "-" + d[|d| - 4..]
  {
    var a := "(" + d[..2] + ") " + d[2..];
    assert DddTelefone(d) == a;
    assert a[|a| - 5..] == d[|d| - 5..];
    assert a[..|a| - 4] == "(" + d[..2] + ") " + d[2..|d| - 4];
    assert a[|a| - 4..] == d[|d| - 4..];
  }

  // ---------------------------------------------------------------------------
  // The page
  // ---------------------------------------------------------------------------

  class PaginaRegistro {
    var nome: string
    var sobrenome: string
    var email: string
    var senha: string
    var confirmar: string
    var telefone: string
    var cpf: string
    var carregando: bool
    var showPassword: bool
    var showConfirmPassword: bool

    /** The text fields, as `validarCampos` and `register` read them. */
    function Campos(): Formulario
      reads this
    {
      Formulario(nome, sobrenome, email, senha, confirmar, telefone, cpf)
    }

    /** Every field starts empty and every flag false. */
    constructor ()
      ensures Campos() == Formulario("", "", "", "", "", "", "")
      ensures !carregando && !showPassword && !showConfirmPassword
    {
      nome, sobrenome, email, senha, confirmar, telefone, cpf := "", "", "", "", "", "", "";
      carregando, showPassword, showConfirmPassword := false, false, false;
    }

    method TogglePassword()
      modifies this
      ensures showPassword == !old(showPassword)
      ensures Campos() == old(Campos()) && showConfirmPassword == old(showConfirmPassword) && carregando == old(carregando)
    {
      showPassword := !showPassword;
    }

    method ToggleConfirmPassword()
      modifies this
      ensures showConfirmPassword == !old(showConfirmPassword)
      ensures Campos() == old(Campos()) && showPassword == old(showPassword) && carregando == old(carregando)
    {
      showConfirmPassword := !showConfirmPassword;
    }

    /** `formatarCPF`: the field becomes the mask of its digits when it has at
      most eleven, and is left alone otherwise. */
    method FormatarCPF()
      modifies this
      ensures JsLength(Digits(old(cpf))) <= 11 ==> cpf == MascararCpf(Digits(old(cpf)))
      ensures JsLength(Digits(old(cpf))) > 11 ==> cpf == old(cpf)
      ensures Campos() == old(Campos()).(cpf := cpf)
      ensures showPassword == old(showPassword) && showConfirmPassword == old(showConfirmPassword) && carregando == old(carregando)
    {
      var c := Digits(cpf);
      if JsLength(c) <= 11 {
        c := PontoAposTres(c);
        c := PontoAposTres(c);
        c := HifenFinalCpf(c);
        cpf := c;
      }
    }

    /** `formatarTelefone`: the same with the phone mask. */
    method FormatarTelefone()
      modifies this
      ensures JsLength(Digits(old(telefone))) <= 11 ==> telefone == MascararTelefone(Digits(old(telefone)))
      ensures JsLength(Digits(old(telefone))) > 11 ==> telefone == old(telefone)
      ensures Campos() == old(Campos()).(telefone := telefone)
      ensures showPassword == old(showPassword) && showConfirmPassword == old(showConfirmPassword) && carregando == old(carregando)
    {
      var t := Digits(telefone);
      if JsLength(t) <= 11 {
        t := DddTelefone(t);
        t := HifenFinalTelefone(t);
        telefone := t;
      }
    }

    /** `limparFormulario`: every field but `sobrenome` is emptied and both
      visibility flags are reset. */
    method LimparFormulario()
      modifies this
      ensures Campos() == Formulario("", old(sobrenome), "", "", "", "", "")
      ensures !showPassword && !showConfirmPassword && carregando == old(carregando)
    {
      nome := "";
      email := "";
      senha := "";
      confirmar := "";
      telefone := "";
      cpf := "";
      showPassword := false;
      showConfirmPassword := false;
    }
  }

  /** Masking keeps the field's digits, and a second `formatarCPF` or
      `formatarTelefone` leaves the field as the first left it. */
  lemma FormatarDuasVezes(cpf: string, telefone: string)
    requires JsLength(Digits(cpf)) <= 11 && JsLength(Digits(telefone)) <= 11
    ensures Digits(MascararCpf(Digits(cpf))) == Digits(cpf)
    ensures Digits(MascararTelefone(Digits(telefone))) == Digits(telefone)
    ensures
      var c := MascararCpf(Digits(cpf));
      JsLength(Digits(c)) <= 11 && MascararCpf(Digits(c)) == c
    ensures
      var t := MascararTelefone(Digits(telefone));
      JsLength(Digits(t)) <= 11 && MascararTelefone(Digits(t)) == t
  {
    MascararCpfDigitos(Digits(cpf));
    MascararTelefoneDigitos(Digits(telefone));
    DigitsIdempotent(cpf);
    DigitsIdempotent(telefone);
  }
}
