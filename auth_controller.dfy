/** Registration and login (controllers/auth_controller.py). The database is
    abstracted: the e-mails and CPFs already stored are sets for the duplicate
    checks of `registrar_usuario`, and the user table is a sequence in the
    order the query sees it for `autenticar`. Password hashing is the
    function `hash` and werkzeug's checker the predicate `confere`. */
module AuthController {
  import opened Base
  import opened Texto
  import opened Usuarios

  /** The request body: None for a key that is absent. */
  datatype DadosRegistro = DadosRegistro(
    nome: Option<string>,
    email: Option<string>,
    senha: Option<string>,
    cpf: Option<string>,
    telefone: Option<string>)

  /** The ValueError messages of `registrar_usuario`, in the order it raises them. */
  datatype ErroRegistro =
    | CamposObrigatorios     // "nome, email e senha são obrigatórios"
    | NomeCurto              // "Nome deve ter pelo menos 2 caracteres"
    | NomeLongo              // "Nome muito longo (máximo 100 caracteres)"
    | EmailInvalido          // "Email inválido"
    | EmailLongo             // "Email muito longo (máximo 100 caracteres)"
    | FormatoEmailInvalido   // "Formato de email inválido"
    | SenhaCurtaDemais       // "Senha deve ter pelo menos 6 caracteres"
    | SenhaLonga             // "Senha muito longa (máximo 100 caracteres)"
    | CpfTamanho             // "CPF deve ter 11 dígitos"
    | CpfInvalido            // "CPF inválido"
    | TelefoneTamanho        // "Telefone deve ter 10 ou 11 dígitos"
    | EmailJaCadastrado      // "E-mail já está cadastrado"
    | CpfJaCadastrado        // "Este CPF já está cadastrado"
    | CpfObrigatorio         // "CPF é obrigatório"
    | TelefoneObrigatorio    // "Telefone é obrigatório"
    | TelefoneInvalido       // "Telefone inválido"

  const MinNome: nat := 2
  const MaxNome: nat := 100
  const MaxEmail: nat := 100
  const MaxSenha: nat := 100

  /** `data.get(chave, '')`. */
  function Campo(v: Option<string>): string { v.GetOr("") }

  /** The e-mail as the backend stores and looks it up: stripped and lower-cased. */
  function NormalizarEmail(email: string): string { Lower(PyStrip(email)) }

  /** `data.get(chave, '').strip() if data.get(chave) else None` on the value
      `Campo` gives, with None as "": the later `if cpf:` treats both alike. */
  function Preenchido(s: string): string
  {
    if s != [] then PyStrip(s) else ""
  }

  /** Stripping keeps the digits, so a value with digits is still filled in. */
  lemma PreenchidoDigitos(s: string)
    ensures Digits(Preenchido(s)) == Digits(s)
    ensures Digits(s) != [] ==> Preenchido(s) != []
  {
    if s != [] {
      DigitsPyStrip(s);
    }
    assert Digits([]) == [];
  }

  /** Some stored e-mail equals `email` once lower-cased. */
  predicate EmailCadastrado(emails: set<string>, email: string)
  {
    exists e :: e in emails && Lower(e) == email
  }

  /** The user `registrar_usuario` creates once every check has passed. */
  function UsuarioCriado(d: DadosRegistro, hash: string -> string): DadosUsuario
  {
    DadosUsuario(PyStrip(Campo(d.nome)), None, Some(Digits(Campo(d.cpf))), Some(Digits(Campo(d.telefone))),
                 NormalizarEmail(Campo(d.email)), Some(hash(PyStrip(Campo(d.senha)))), Cliente, true, 0, None)
  }

  /** The quick test before the pattern: an '@', and a dot after the last '@'. */
  predicate TriagemEmail(email: string)
  {
    '@' in email && '.' in Split(email, '@')[|Split(email, '@')| - 1]
  }

  /** The checks on name, e-mail and password. */
  function ErroCredenciais(nome: string, email: string, senha: string): Option<ErroRegistro>
  {
    if nome == [] || email == [] || senha == [] then Some(CamposObrigatorios)
    else if |nome| < MinNome then Some(NomeCurto)
    else if |nome| > MaxNome then Some(NomeLongo)
    else if !TriagemEmail(email) then Some(EmailInvalido)
    else if |email| > MaxEmail then Some(EmailLongo)
    else if !CasaPadraoEmail(email) then Some(FormatoEmailInvalido)
    else if |senha| < MinSenha then Some(SenhaCurtaDemais)
    else if |senha| > MaxSenha then Some(SenhaLonga)
    else None
  }

  /** The checks on a CPF and phone given (non-blank) in the request. */
  function ErroOpcionais(cpf: string, telefone: string): Option<ErroRegistro>
  {
    if cpf != [] && |Digits(cpf)| != 11 then Some(CpfTamanho)
    else if cpf != [] && Digits(cpf) in CpfsInvalidos then Some(CpfInvalido)
    else if telefone != [] && (|Digits(telefone)| < 10 || |Digits(telefone)| > 11) then Some(TelefoneTamanho)
    else None
  }

  /** The duplicate checks against the stored e-mails and CPFs; `cpf` is the
      cleaned CPF of the request, or "" when none was given. */
  function ErroDuplicados(email: string, cpf: string, emails: set<string>, cpfs: set<string>): Option<ErroRegistro>
  {
    if EmailCadastrado(emails, email) then Some(EmailJaCadastrado)
    else if cpf != [] && cpf in cpfs then Some(CpfJaCadastrado)
    else None
  }

  /** The checks on the raw CPF and phone once the user object exists. */
  function ErroObrigatorios(cpf: string, telefone: string): Option<ErroRegistro>
  {
    if cpf == [] then Some(CpfObrigatorio)
    else if |Digits(cpf)| != 11 then Some(CpfTamanho)
    else if telefone == [] then Some(TelefoneObrigatorio)
    else if |Digits(telefone)| < 10 || |Digits(telefone)| > 11 then Some(TelefoneInvalido)
    else None
  }

  /** The first group of checks, on the stripped name, the normalised e-mail
      and the stripped password. */
  function EtapaCredenciais(d: DadosRegistro): Option<ErroRegistro>
  {
    ErroCredenciais(PyStrip(Campo(d.nome)), NormalizarEmail(Campo(d.email)), PyStrip(Campo(d.senha)))
  }

  /** The second group, on the CPF and phone the request fills in. */
  function EtapaOpcionais(d: DadosRegistro): Option<ErroRegistro>
  {
    ErroOpcionais(Preenchido(Campo(d.cpf)), Preenchido(Campo(d.telefone)))
  }

  /** The third group, the duplicate checks on the e-mail and the cleaned CPF. */
  function EtapaDuplicados(d: DadosRegistro, emails: set<string>, cpfs: set<string>): Option<ErroRegistro>
  {
    var cpf := Preenchido(Campo(d.cpf));
    ErroDuplicados(NormalizarEmail(Campo(d.email)), if cpf != [] then Digits(cpf) else cpf, emails, cpfs)
  }

  /** The fourth group, on the raw CPF and phone. */
  function EtapaObrigatorios(d: DadosRegistro): Option<ErroRegistro>
  {
    ErroObrigatorios(Campo(d.cpf), Campo(d.telefone))
  }

  /** Four groups of checks in order: the first error, else the user. */
  function Encadear(e1: Option<ErroRegistro>, e2: Option<ErroRegistro>, e3: Option<ErroRegistro>,
                    e4: Option<ErroRegistro>, u: DadosUsuario): Result<DadosUsuario, ErroRegistro>
  {
    if e1.Some? then Err(e1.value)
    else if e2.Some? then Err(e2.value)
    else if e3.Some? then Err(e3.value)
    else if e4.Some? then Err(e4.value)
    else Ok(u)
  }

  /** The chain succeeds exactly when no group fails, and then yields the
      user; otherwise it reports the first group's error. */
  lemma EncadearSse(e1: Option<ErroRegistro>, e2: Option<ErroRegistro>, e3: Option<ErroRegistro>,
                    e4: Option<ErroRegistro>, u: DadosUsuario)
    ensures Encadear(e1, e2, e3, e4, u).Ok? <==> e1.None? && e2.None? && e3.None? && e4.None?
    ensures Encadear(e1, e2, e3, e4, u).Ok? ==> Encadear(e1, e2, e3, e4, u).value == u
    ensures e1.None? && e2.None? && e3.Some? ==> Encadear(e1, e2, e3, e4, u) == Err(e3.value)
  {
  }

  /** `registrar_usuario`: the four groups of checks in order, then the new user. */
  function Registrar(d: DadosRegistro, emails: set<string>, cpfs: set<string>, hash: string -> string)
    : Result<DadosUsuario, ErroRegistro>
  {
    Encadear(EtapaCredenciais(d), EtapaOpcionais(d), EtapaDuplicados(d, emails, cpfs), EtapaObrigatorios(d),
             UsuarioCriado(d, hash))
  }

  /** The rules a registration must meet, stated on the request as a whole:
      a name of 2..100 characters and a password of 6..100 once stripped, a
      valid normalised e-mail of at most 100 characters not yet stored in any
      letter case, a CPF of 11 digits that are not all the same and not
      stored, and a phone of 10 or 11 digits. */
  predicate Aceitavel(d: DadosRegistro, emails: set<string>, cpfs: set<string>)
  {
    var nome := PyStrip(Campo(d.nome));
    var email := NormalizarEmail(Campo(d.email));
    var senha := PyStrip(Campo(d.senha));
    var cpf := Digits(Campo(d.cpf));
    var telefone := Digits(Campo(d.telefone));
    && MinNome <= |nome| <= MaxNome
    && ValidarEmail(email) && |email| <= MaxEmail && !EmailCadastrado(emails, email)
    && MinSenha <= |senha| <= MaxSenha
    && |cpf| == 11 && !MesmoDigito(cpf) && cpf !in cpfs
    && ValidarTelefone(telefone)
  }

  /** What the pattern accepts also passes the quick '@' and dot test before it. */
  lemma PadraoPassaNaTriagem(email: string)
    requires CasaPadraoEmail(email)
    ensures TriagemEmail(email)
  {
    CasaPadraoEmailSse(email);
    var i, j :| FormaEmail(CorpoEmail(email), i, j);
    ArrobaUnica(email, i, j);
    var resto := email[i + 1..];
    assert resto[j - i - 1] == email[j] == '.';
  }

  /** The pattern's '@' is the only one, so splitting on it gives two parts. */
  lemma ArrobaUnica(email: string, i: int, j: int)
    requires FormaEmail(CorpoEmail(email), i, j)
    ensures 0 < i < j < |email| && email[i] == '@' && email[j] == '.'
    ensures Split(email, '@') == [email[..i], email[i + 1..]]
  {
    var b := CorpoEmail(email);
    assert email[i] == b[i] && email[j] == b[j];
    SemArrobaAntes(email, i, j);
    SemArrobaDepois(email, i, j);
    SplitUnico(email, '@', i);
  }

  /** Before the pattern's '@' there is no other '@'. */
  lemma SemArrobaAntes(email: string, i: int, j: int)
    requires FormaEmail(CorpoEmail(email), i, j)
    ensures forall k :: 0 <= k < i ==> email[k] != '@'
  {
    var b := CorpoEmail(email);
    forall k | 0 <= k < i ensures email[k] != '@' { assert email[k] == b[k] && CharLocal(b[k]); }
  }

  /** After the pattern's '@' there is no other '@'. */
  lemma SemArrobaDepois(email: string, i: int, j: int)
    requires FormaEmail(CorpoEmail(email), i, j)
    ensures forall k :: i < k < |email| ==> email[k] != '@'
  {
    forall k | i < k < |email| ensures email[k] != '@' {
      SemArrobaAposArroba(email, i, j, k);
    }
  }

  /** Past the '@' of the pattern's split, no character is another '@'. */
  lemma SemArrobaAposArroba(email: string, i: int, j: int, p: int)
    requires FormaEmail(CorpoEmail(email), i, j) && i < p < |email|
    ensures email[p] != '@'
  {
    var b := CorpoEmail(email);
    if p < |b| {
      assert email[p] == b[p];
      if p < j { assert CharDominio(b[p]); }
      else if j < p { assert LetraAscii(b[p]); }
    }
  }

  lemma ErroCredenciaisSse(nome: string, email: string, senha: string)
    ensures ErroCredenciais(nome, email, senha).None? <==>
      MinNome <= |nome| <= MaxNome && ValidarEmail(email) && |email| <= MaxEmail && MinSenha <= |senha| <= MaxSenha
  {
    assert ValidarEmail(email) == CasaPadraoEmail(email) by {
      ValidarEmailPadrao(email);
    }
    assert CasaPadraoEmail(email) ==> TriagemEmail(email) by {
      if CasaPadraoEmail(email) {
        PadraoPassaNaTriagem(email);
      }
    }
  }

  /** The required checks on the raw values pass exactly for 11 CPF digits
      and 10 or 11 phone digits. */
  lemma ErroObrigatoriosSse(cpf: string, telefone: string)
    ensures ErroObrigatorios(cpf, telefone).None? <==> |Digits(cpf)| == 11 && 10 <= |Digits(telefone)| <= 11
  {
    assert Digits([]) == [];
  }

  /** Once those pass, the optional checks only add the repeated-digit list. */
  lemma ErroOpcionaisSse(cpf: string, telefone: string)
    requires |Digits(cpf)| == 11 && 10 <= |Digits(telefone)| <= 11
    ensures ErroOpcionais(Preenchido(cpf), Preenchido(telefone)).None? <==> !MesmoDigito(Digits(cpf))
  {
    PreenchidoDigitos(cpf);
    PreenchidoDigitos(telefone);
    CpfsInvalidosSse(Digits(cpf));
  }

  /** The CPF and phone checks, optional and required together, pass exactly
      for an 11-digit CPF that is not one repeated digit and a phone of 10 or
      11 digits. */
  lemma ErroDocumentosSse(cpf: string, telefone: string)
    ensures ErroOpcionais(Preenchido(cpf), Preenchido(telefone)).None? && ErroObrigatorios(cpf, telefone).None? <==>
      |Digits(cpf)| == 11 && !MesmoDigito(Digits(cpf)) && 10 <= |Digits(telefone)| <= 11
  {
    ErroObrigatoriosSse(cpf, telefone);
    if |Digits(cpf)| == 11 && 10 <= |Digits(telefone)| <= 11 {
      ErroOpcionaisSse(cpf, telefone);
    }
  }

  /** With the CPF checks passed, the duplicate checks pass exactly for an
      e-mail and a CPF not stored yet. */
  lemma ErroDuplicadosSse(email: string, cpf: string, emails: set<string>, cpfs: set<string>)
    requires |Digits(cpf)| == 11
    ensures ErroDuplicados(email, if Preenchido(cpf) != [] then Digits(Preenchido(cpf)) else Preenchido(cpf), emails, cpfs).None?
            <==> !EmailCadastrado(emails, email) && Digits(cpf) !in cpfs
  {
    PreenchidoDigitos(cpf);
  }

  /** The first group passes exactly when the stripped name, the normalised
      e-mail and the stripped password meet their rules. */
  lemma EtapaCredenciaisSse(d: DadosRegistro)
    ensures EtapaCredenciais(d).None? <==>
      && MinNome <= |PyStrip(Campo(d.nome))| <= MaxNome
      && ValidarEmail(NormalizarEmail(Campo(d.email))) && |NormalizarEmail(Campo(d.email))| <= MaxEmail
      && MinSenha <= |PyStrip(Campo(d.senha))| <= MaxSenha
  {
    ErroCredenciaisSse(PyStrip(Campo(d.nome)), NormalizarEmail(Campo(d.email)), PyStrip(Campo(d.senha)));
  }

  /** The second and fourth groups together pass exactly for a CPF of 11
      digits, not one repeated digit, and a valid phone. */
  lemma EtapasDocumentosSse(d: DadosRegistro)
    ensures EtapaOpcionais(d).None? && EtapaObrigatorios(d).None? <==>
      && |Digits(Campo(d.cpf))| == 11 && !MesmoDigito(Digits(Campo(d.cpf)))
      && ValidarTelefone(Digits(Campo(d.telefone)))
  {
    var t := Campo(d.telefone);
    assert ValidarTelefone(Digits(t)) <==> 10 <= |Digits(t)| <= 11 by {
      DigitsIdempotent(t);
    }
    ErroDocumentosSse(Campo(d.cpf), t);
  }

  /** With an 11-digit CPF, the third group passes exactly for an e-mail and
      a CPF not stored yet. */
  lemma EtapaDuplicadosSse(d: DadosRegistro, emails: set<string>, cpfs: set<string>)
    requires |Digits(Campo(d.cpf))| == 11
    ensures EtapaDuplicados(d, emails, cpfs).None? <==>
      !EmailCadastrado(emails, NormalizarEmail(Campo(d.email))) && Digits(Campo(d.cpf)) !in cpfs
  {
    ErroDuplicadosSse(NormalizarEmail(Campo(d.email)), Campo(d.cpf), emails, cpfs);
  }

  /** Registration succeeds exactly when the request meets every rule. */
  lemma RegistrarSse(d: DadosRegistro, emails: set<string>, cpfs: set<string>, hash: string -> string)
    ensures Registrar(d, emails, cpfs, hash).Ok? <==> Aceitavel(d, emails, cpfs)
  {
    EtapaCredenciaisSse(d);
    EtapasDocumentosSse(d);
    if |Digits(Campo(d.cpf))| == 11 {
      EtapaDuplicadosSse(d, emails, cpfs);
    }
    EncadearSse(EtapaCredenciais(d), EtapaOpcionais(d), EtapaDuplicados(d, emails, cpfs), EtapaObrigatorios(d),
                UsuarioCriado(d, hash));
  }

  // ---------------------------------------------------------------------------
  // What registration promises
  // ---------------------------------------------------------------------------

  /** A created user satisfies every rule: a stripped name of 2..100
      characters, a normalised e-mail of at most 100 characters that matches
      the pattern and is not stored yet, a password of 6..100 characters
      (hashed after stripping), and digits-only CPF (11, not one repeated
      digit, not stored yet) and phone (10 or 11); it is an active client
      whose surname is never stored. */
  lemma RegistrarSucesso(d: DadosRegistro, emails: set<string>, cpfs: set<string>, hash: string -> string)
    requires Registrar(d, emails, cpfs, hash).Ok?
    ensures
      var u := Registrar(d, emails, cpfs, hash).value;
      && u.nome == PyStrip(Campo(d.nome)) && MinNome <= |u.nome| <= MaxNome
      && u.email == NormalizarEmail(Campo(d.email)) && |u.email| <= MaxEmail && ValidarEmail(u.email)
      && !EmailCadastrado(emails, u.email)
      && MinSenha <= |PyStrip(Campo(d.senha))| <= MaxSenha && u.senhaHash == Some(hash(PyStrip(Campo(d.senha))))
      && u.cpf == Some(Digits(Campo(d.cpf))) && |u.cpf.value| == 11 && !MesmoDigito(u.cpf.value) && u.cpf.value !in cpfs
      && u.telefone == Some(Digits(Campo(d.telefone))) && ValidarTelefone(u.telefone.value)
      && u.IsCliente() && u.ativo && u.sobrenome.None? && u.tentativasLogin == 0 && u.bloqueadoAte.None?
  {
    assert Aceitavel(d, emails, cpfs) by {
      RegistrarSse(d, emails, cpfs, hash);
    }
    EncadearSse(EtapaCredenciais(d), EtapaOpcionais(d), EtapaDuplicados(d, emails, cpfs), EtapaObrigatorios(d),
                UsuarioCriado(d, hash));
  }

  /** Missing or blank name, e-mail or password is reported before anything else. */
  lemma RegistrarCamposObrigatorios(d: DadosRegistro, emails: set<string>, cpfs: set<string>, hash: string -> string)
    requires PyStrip(Campo(d.nome)) == [] || PyStrip(Campo(d.email)) == [] || PyStrip(Campo(d.senha)) == []
    ensures Registrar(d, emails, cpfs, hash) == Err(CamposObrigatorios)
  {
  }

  /** A stored e-mail, in any letter case, is reported before a stored CPF. */
  lemma EmailDuplicadoAntesDoCpf(d: DadosRegistro, emails: set<string>, cpfs: set<string>, hash: string -> string)
    requires Registrar(d, {}, {}, hash).Ok?
    requires EmailCadastrado(emails, NormalizarEmail(Campo(d.email)))
    ensures Registrar(d, emails, cpfs, hash) == Err(EmailJaCadastrado)
  {
    var u := UsuarioCriado(d, hash);
    EncadearSse(EtapaCredenciais(d), EtapaOpcionais(d), EtapaDuplicados(d, {}, {}), EtapaObrigatorios(d), u);
    EncadearSse(EtapaCredenciais(d), EtapaOpcionais(d), EtapaDuplicados(d, emails, cpfs), EtapaObrigatorios(d), u);
    assert EtapaDuplicados(d, emails, cpfs) == Some(EmailJaCadastrado);
  }

  /** With a fresh e-mail, a stored CPF (compared on its digits) is refused. */
  lemma CpfDuplicadoRecusado(d: DadosRegistro, emails: set<string>, cpfs: set<string>, hash: string -> string)
    requires Registrar(d, {}, {}, hash).Ok?
    requires !EmailCadastrado(emails, NormalizarEmail(Campo(d.email)))
    requires Digits(Campo(d.cpf)) in cpfs
    ensures Registrar(d, emails, cpfs, hash) == Err(CpfJaCadastrado)
  {
    var u := UsuarioCriado(d, hash);
    EncadearSse(EtapaCredenciais(d), EtapaOpcionais(d), EtapaDuplicados(d, {}, {}), EtapaObrigatorios(d), u);
    EncadearSse(EtapaCredenciais(d), EtapaOpcionais(d), EtapaDuplicados(d, emails, cpfs), EtapaObrigatorios(d), u);
    assert EtapaDuplicados(d, emails, cpfs) == Some(CpfJaCadastrado) by {
      PreenchidoDigitos(Campo(d.cpf));
    }
  }

  /** Omitting the CPF or the phone gets past the optional checks but is
      refused afterwards: both are required. */
  lemma CpfETelefoneObrigatorios(d: DadosRegistro, emails: set<string>, cpfs: set<string>, hash: string -> string)
    ensures d.cpf.None? ==> Registrar(d, emails, cpfs, hash).Err?
    ensures d.telefone.None? ==> Registrar(d, emails, cpfs, hash).Err?
  {
    EncadearSse(EtapaCredenciais(d), EtapaOpcionais(d), EtapaDuplicados(d, emails, cpfs), EtapaObrigatorios(d),
                UsuarioCriado(d, hash));
    assert d.cpf.None? || d.telefone.None? ==> EtapaObrigatorios(d).Some?;
  }

  /** The fields of the example below, one lemma each. */
  lemma NomeESenhaExemplo()
    ensures PyStrip("Ana") == "Ana" && PyStrip("segredo") == "segredo"
  {
    TrimNoBorderSpace("Ana", PySpace);
    TrimNoBorderSpace("segredo", PySpace);
  }

  lemma EmailExemplo()
    ensures NormalizarEmail("ana@exemplo.com") == "ana@exemplo.com"
  {
    TrimNoBorderSpace("ana@exemplo.com", PySpace);
    LowerAscii("ana@exemplo.com");
  }

  lemma TelefoneExemplo()
    ensures Digits("11987654321") == "11987654321"
  {
    DigitsOfAllDigits("11987654321");
  }

  lemma CpfPontuadoExemplo()
    ensures Digits("529.982.247-26") == "52998224726" && !MesmoDigito("52998224726")
  {
    DigitsCpfErrado();
    assert "5299822472" + ['6'] == "52998224726";
    assert "52998224726"[1] != "52998224726"[0];
  }

  /** The example request below meets every rule. */
  lemma ExemploAceitavel(d: DadosRegistro)
    requires d == DadosRegistro(Some("Ana"), Some("ana@exemplo.com"), Some("segredo"), Some("529.982.247-26"), Some("11987654321"))
    ensures Aceitavel(d, {}, {})
  {
    var email := NormalizarEmail(Campo(d.email));
    var cpf, telefone := Digits(Campo(d.cpf)), Digits(Campo(d.telefone));
    assert MinNome <= |PyStrip(Campo(d.nome))| <= MaxNome && MinSenha <= |PyStrip(Campo(d.senha))| <= MaxSenha by {
      NomeESenhaExemplo();
    }
    assert ValidarEmail(email) && |email| <= MaxEmail && !EmailCadastrado({}, email) by {
      EmailExemplo();
      EmailsAceitosExemplo();
    }
    assert |cpf| == 11 && !MesmoDigito(cpf) && cpf !in {} by {
      CpfPontuadoExemplo();
    }
    assert ValidarTelefone(telefone) by {
      TelefoneExemplo();
    }
  }

  /** The backend never tests the CPF check digits at registration: a
      punctuated CPF whose last check digit is wrong, which `validar_cpf`
      refuses, is accepted and stored as its digits. */
  lemma RegistrarNaoConfereDigitos(d: DadosRegistro, hash: string -> string)
    requires d == DadosRegistro(Some("Ana"), Some("ana@exemplo.com"), Some("segredo"), Some("529.982.247-26"), Some("11987654321"))
    ensures Registrar(d, {}, {}, hash).Ok?
    ensures Registrar(d, {}, {}, hash).value.cpf == Some("52998224726")
    ensures !ValidarCpf(d.cpf.value)
  {
    ExemploAceitavel(d);
    CpfPontuadoExemplo();
    CpfDigitoErradoExemplo();
    RegistrarSse(d, {}, {}, hash);
    RegistrarSucesso(d, {}, {}, hash);
    assert Campo(d.cpf) == "529.982.247-26";
  }

  /** Lower-casing leaves lower-case ASCII alone. */
  lemma {:induction false} LowerAscii(s: string)
    requires forall k :: 0 <= k < |s| ==> !('A' <= s[k] <= 'Z') && s[k] as int != 0x212A && s[k] as int != 0x130
    ensures Lower(s) == s
  {
    if s != [] {
      LowerAscii(s[1..]);
    }
  }

  /** The checks on name, e-mail and password as early exits. */
  method VerificarCredenciais(nome: string, email: string, senha: string) returns (e: Option<ErroRegistro>)
    ensures e == ErroCredenciais(nome, email, senha)
  {
    if nome == [] || email == [] || senha == [] {
      return Some(CamposObrigatorios);
    }
    if |nome| < MinNome {
      return Some(NomeCurto);
    }
    if |nome| > MaxNome {
      return Some(NomeLongo);
    }
    var partes := Split(email, '@');
    if '@' !in email || '.' !in partes[|partes| - 1] {
      return Some(EmailInvalido);
    }
    if |email| > MaxEmail {
      return Some(EmailLongo);
    }
    if !CasaPadraoEmail(email) {
      return Some(FormatoEmailInvalido);
    }
    if |senha| < MinSenha {
      return Some(SenhaCurtaDemais);
    }
    if |senha| > MaxSenha {
      return Some(SenhaLonga);
    }
    return None;
  }

  /** The checks on the CPF and phone given in the request; on success, the
      CPF reduced to its digits (or "" when none was given), which the
      duplicate check then uses. */
  method VerificarOpcionais(cpf: string, telefone: string) returns (e: Option<ErroRegistro>, cpfLimpo: string)
    ensures e == ErroOpcionais(cpf, telefone)
    ensures cpfLimpo == if cpf != [] then Digits(cpf) else cpf
  {
    cpfLimpo := cpf;
    if cpf != [] {
      cpfLimpo := Digits(cpf);
      if |cpfLimpo| != 11 {
        return Some(CpfTamanho), cpfLimpo;
      }
      if cpfLimpo in CpfsInvalidos {
        return Some(CpfInvalido), cpfLimpo;
      }
    }
    if telefone != [] {
      var telefoneLimpo := Digits(telefone);
      if |telefoneLimpo| < 10 || |telefoneLimpo| > 11 {
        return Some(TelefoneTamanho), cpfLimpo;
      }
    }
    return None, cpfLimpo;
  }

  /** The duplicate checks: the e-mail in any letter case, then the cleaned CPF. */
  method VerificarDuplicados(email: string, cpf: string, emails: set<string>, cpfs: set<string>)
    returns (e: Option<ErroRegistro>)
    ensures e == ErroDuplicados(email, cpf, emails, cpfs)
  {
    if EmailCadastrado(emails, email) {
      return Some(EmailJaCadastrado);
    }
    if cpf != [] && cpf in cpfs {
      return Some(CpfJaCadastrado);
    }
    return None;
  }

  /** The checks on the raw CPF and phone read back from the request, with
      the digits of each as they are stored. */
  method VerificarObrigatorios(cpfBruto: string, telefoneBruto: string)
    returns (e: Option<ErroRegistro>, cpf: string, telefone: string)
    ensures e == ErroObrigatorios(cpfBruto, telefoneBruto)
    ensures cpf == Digits(cpfBruto) && telefone == Digits(telefoneBruto)
  {
    cpf, telefone := Digits(cpfBruto), Digits(telefoneBruto);
    if cpfBruto == [] {
      return Some(CpfObrigatorio), cpf, telefone;
    }
    if |cpf| != 11 {
      return Some(CpfTamanho), cpf, telefone;
    }
    if telefoneBruto == [] {
      return Some(TelefoneObrigatorio), cpf, telefone;
    }
    if |telefone| < 10 || |telefone| > 11 {
      return Some(TelefoneInvalido), cpf, telefone;
    }
    return None, cpf, telefone;
  }

  /** The last steps on the new object: the CPF and phone digits, then the
      password through `set_senha`, which cannot fail on a checked password. */
  method PreencherUsuario(user: Usuario, cpf: string, telefone: string, senha: string, hash: string -> string)
    requires |senha| >= MinSenha
    modifies user
    ensures user.Estado() == old(user.Estado()).(cpf := Some(cpf), telefone := Some(telefone), senhaHash := Some(hash(senha)))
  {
    user.cpf := Some(cpf);
    user.telefone := Some(telefone);
    var definida := user.SetSenha(senha, hash);
    assert definida == Pass;
  }

  /** The registration: each group of checks in order, stopping at the first
      error; the user object is created before the required CPF and phone are
      read back from the request, and only a complete user is returned. */
  method RegistrarUsuario(d: DadosRegistro, emails: set<string>, cpfs: set<string>, hash: string -> string)
    returns (r: Result<Usuario, ErroRegistro>)
    ensures Registrar(d, emails, cpfs, hash).Err? ==> r == Err(Registrar(d, emails, cpfs, hash).error)
    ensures Registrar(d, emails, cpfs, hash).Ok? ==>
      r.Ok? && fresh(r.value) && r.value.Estado() == Registrar(d, emails, cpfs, hash).value
  {
    var nome := PyStrip(Campo(d.nome));
    var email := NormalizarEmail(Campo(d.email));
    var senha := PyStrip(Campo(d.senha));
    var cpf := Preenchido(Campo(d.cpf));
    var telefone := Preenchido(Campo(d.telefone));
    var erro := VerificarCredenciais(nome, email, senha);
    if erro.Some? {
      return Err(erro.value);
    }
    erro, cpf := VerificarOpcionais(cpf, telefone);
    if erro.Some? {
      return Err(erro.value);
    }
    erro := VerificarDuplicados(email, cpf, emails, cpfs);
    if erro.Some? {
      return Err(erro.value);
    }
    var user := new Usuario(nome, email, Cliente, true);
    erro, cpf, telefone := VerificarObrigatorios(Campo(d.cpf), Campo(d.telefone));
    if erro.Some? {
      return Err(erro.value);
    }
    assert |senha| >= MinSenha by { ErroCredenciaisSse(nome, email, senha); }
    PreencherUsuario(user, cpf, telefone, senha, hash);
    assert Registrar(d, emails, cpfs, hash) == Ok(UsuarioCriado(d, hash));
    return Ok(user);
  }

  // ---------------------------------------------------------------------------
  // Login
  // ---------------------------------------------------------------------------

  /** Position of the first user whose lower-cased e-mail is `email`, or |usuarios|. */
  function IndiceEmail(usuarios: seq<DadosUsuario>, email: string): (k: nat)
    ensures k <= |usuarios|
    ensures k < |usuarios| ==> Lower(usuarios[k].email) == email
    ensures forall j :: 0 <= j < k ==> Lower(usuarios[j].email) != email
  {
    if usuarios == [] then 0
    else if Lower(usuarios[0].email) == email then 0
    else 1 + IndiceEmail(usuarios[1..], email)
  }

  /** `autenticar`: the matched user, or None. */
  function Autenticar(usuarios: seq<DadosUsuario>, email: string, senha: string,
                      confere: (string, string) -> bool): Option<DadosUsuario>
  {
    var e := NormalizarEmail(email);
    if e == [] || senha == [] then None
    else
      var k := IndiceEmail(usuarios, e);
      if k == |usuarios| then None
      else if !usuarios[k].ativo then None
      else if !usuarios[k].CheckSenha(senha, confere) then None
      else Some(usuarios[k])
  }

  /** Login succeeds exactly for a non-empty e-mail and password, a user
      whose e-mail matches in any letter case (the first such), who is active
      and whose password checks; it then returns that user. */
  lemma AutenticarSse(usuarios: seq<DadosUsuario>, email: string, senha: string, confere: (string, string) -> bool)
    ensures Autenticar(usuarios, email, senha, confere).Some? <==>
      var e := NormalizarEmail(email);
      var k := IndiceEmail(usuarios, e);
      && e != [] && senha != [] && k < |usuarios|
      && usuarios[k].ativo && usuarios[k].CheckSenha(senha, confere)
    ensures Autenticar(usuarios, email, senha, confere).Some? ==>
      var u := Autenticar(usuarios, email, senha, confere).value;
      u in usuarios && Lower(u.email) == NormalizarEmail(email) && u.ativo
    ensures (forall j :: 0 <= j < |usuarios| ==> Lower(usuarios[j].email) != NormalizarEmail(email)) ==>
      Autenticar(usuarios, email, senha, confere).None?
  {
  }

  /** The first character of a lower-cased string is not white space when the
      original's is not, and likewise the last. */
  lemma LowerBordas(s: string)
    requires s != [] && !PySpace(s[0]) && !PySpace(s[|s| - 1])
    ensures Lower(s) != [] && !PySpace(Lower(s)[0]) && !PySpace(Lower(s)[|Lower(s)| - 1])
  {
    var ini := s[..|s| - 1];
    assert s == ini + [s[|s| - 1]];
    LowerConcat(ini, [s[|s| - 1]]);
    assert Lower([s[|s| - 1]]) == LowerChar(s[|s| - 1]);
    assert Lower(s)[0] == LowerChar(s[0])[0];
  }

  /** Normalising an already normalised e-mail changes nothing, so login is
      insensitive to the letter case and surrounding blanks of the e-mail. */
  lemma NormalizarEmailIdempotente(email: string)
    ensures NormalizarEmail(NormalizarEmail(email)) == NormalizarEmail(email)
  {
    var t := PyStrip(email);
    if t != [] {
      LowerBordas(t);
      TrimNoBorderSpace(Lower(t), PySpace);
    } else {
      assert Lower(t) == [];
      assert PyStrip([]) == [];
    }
    LowerIdempotent(t);
  }

  lemma AutenticarEmailNormalizado(usuarios: seq<DadosUsuario>, email: string, senha: string,
                                   confere: (string, string) -> bool)
    ensures Autenticar(usuarios, email, senha, confere) == Autenticar(usuarios, NormalizarEmail(email), senha, confere)
  {
    NormalizarEmailIdempotente(email);
  }

  /** A user appended after every user with another e-mail is found by
      that e-mail and logs in with a password that checks. */
  lemma AutenticarNovoUsuario(usuarios: seq<DadosUsuario>, u: DadosUsuario, email: string, senha: string,
                              confere: (string, string) -> bool)
    requires NormalizarEmail(email) != [] && senha != []
    requires forall j :: 0 <= j < |usuarios| ==> Lower(usuarios[j].email) != NormalizarEmail(email)
    requires Lower(u.email) == NormalizarEmail(email) && u.ativo && u.CheckSenha(senha, confere)
    ensures Autenticar(usuarios + [u], email, senha, confere) == Some(u)
  {
    var t := usuarios + [u];
    var e := NormalizarEmail(email);
    forall j | 0 <= j < |usuarios| ensures Lower(t[j].email) != e {
      assert t[j] == usuarios[j];
    }
    assert t[|usuarios|] == u;
    var k := IndiceEmail(t, e);
    assert k == |usuarios|;
  }

  /** A user just registered can log in with the same e-mail, typed in any
      case, and the stripped password the client sends, provided every stored
      user's e-mail is in the set the duplicate check saw and `confere`
      recognises the hashes `hash` makes. */
  lemma RegistrarEntaoAutenticar(usuarios: seq<DadosUsuario>, d: DadosRegistro, emails: set<string>, cpfs: set<string>,
                                 hash: string -> string, confere: (string, string) -> bool)
    requires Registrar(d, emails, cpfs, hash).Ok?
    requires forall j :: 0 <= j < |usuarios| ==> usuarios[j].email in emails
    requires forall s :: hash(s) != [] && confere(hash(s), s)
    ensures Autenticar(usuarios + [Registrar(d, emails, cpfs, hash).value], Campo(d.email), PyStrip(Campo(d.senha)), confere)
            == Some(Registrar(d, emails, cpfs, hash).value)
  {
    var u := Registrar(d, emails, cpfs, hash).value;
    var e := NormalizarEmail(Campo(d.email));
    var senha := PyStrip(Campo(d.senha));
    assert u.email == e && !EmailCadastrado(emails, e) && u.ativo && u.senhaHash == Some(hash(senha)) && |senha| >= MinSenha by {
      RegistrarSucesso(d, emails, cpfs, hash);
    }
    assert Lower(u.email) == e by {
      LowerIdempotent(PyStrip(Campo(d.email)));
    }
    assert e != [] by { ValidarEmailPadrao(u.email); assert ValidarEmail(u.email) by { RegistrarSucesso(d, emails, cpfs, hash); } }
    forall j | 0 <= j < |usuarios| ensures Lower(usuarios[j].email) != e {
      assert usuarios[j].email in emails;
    }
    AutenticarNovoUsuario(usuarios, u, Campo(d.email), senha, confere);
  }
}
