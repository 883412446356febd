/** Clients (Models/Cliente.cs): an object with four validating property
    setters that stay public after construction, so a client is a `class`
    whose fields are updated in place. The checks themselves are functions on
    values, which the setters, the constructor and the loading of the client
    file share. */
module Clientes {
  import opened Wrappers
  import opened Sequencias
  import opened Texto
  import opened Erros

  /** The four properties of a client, as a value: what the client file
      holds for each client. */
  datatype DadosCliente = DadosCliente(id: Int32, nome: string, email: string, telefone: string)

  const MSG_ID := "O ID deve ser maior que zero."
  const MSG_NOME_VAZIO := "O nome não pode estar vazio."
  const MSG_NOME_CURTO := "O nome deve ter pelo menos 3 caracteres."
  const MSG_EMAIL_VAZIO := "O email não pode estar vazio."
  const MSG_EMAIL_FORMATO := "Formato de email inválido."
  const MSG_TELEFONE := "Telefone deve ter pelo menos 9 dígitos."

  // ---------------------------------------------------------------------
  // The e-mail pattern ^[^@\s]+@[^@\s]+\.[^@\s]+$

  /** A character of the class `[^@\s]`. */
  predicate CaracterEmail(c: char)
  {
    c != '@' && !EspacoBranco(c)
  }

  /** `s` splits as X '@' Y '.' Z, with X, Y and Z non-empty runs of
      `[^@\s]`: the '@' is at `i`, the dot after Y at `j`. */
  ghost predicate Decomposicao(s: string, i: int, j: int)
  {
    && 0 < i && i + 1 < j < |s| - 1
    && s[i] == '@' && s[j] == '.'
    && forall k :: 0 <= k < |s| && k != i ==> CaracterEmail(s[k])
  }

  /** The whole of `s` matches `[^@\s]+@[^@\s]+\.[^@\s]+`. */
  ghost predicate CorpoEmail(s: string)
  {
    exists i, j :: Decomposicao(s, i, j)
  }

  /** The language of the anchored pattern: .NET's `$` also matches before
      a final line feed, so the body may be followed by one '\n'. */
  ghost predicate CasaPadraoEmail(s: string)
  {
    || CorpoEmail(s)
    || (|s| > 0 && s[|s| - 1] == '\n' && CorpoEmail(s[..|s| - 1]))
  }

  /** Match the body by locating the first '@'. */
  function EhCorpoEmail(s: string): (r: bool)
    ensures r <==> CorpoEmail(s)
  {
    match PrimeiroIndice(s, c => c == '@')
    case None =>
      assert forall i, j :: !Decomposicao(s, i, j);
      false
    case Some(i) =>
      var r := 0 < i
        && (forall k :: 0 <= k < |s| && k != i ==> CaracterEmail(s[k]))
        && (exists j :: i + 1 < j < |s| - 1 && s[j] == '.');
      assert r ==> CorpoEmail(s) by {
        if r {
          var j :| i + 1 < j < |s| - 1 && s[j] == '.';
          assert Decomposicao(s, i, j);
        }
      }
      assert CorpoEmail(s) ==> r by {
        if CorpoEmail(s) {
          var i', j :| Decomposicao(s, i', j);
          ArrobaUnica(s, i, i', j);
        }
      }
      r
  }

  /** A decomposition can only put its '@' at the first '@' of the string. */
  lemma ArrobaUnica(s: string, i: nat, i': int, j: int)
    requires i < |s| && s[i] == '@'
    requires Decomposicao(s, i', j)
    ensures i' == i
  {
    assert !CaracterEmail(s[i]);
  }

  /** Anything the pattern accepts has a character other than white space:
      its '@'. */
  lemma CasaPadraoNaoEmBranco(s: string)
    ensures CasaPadraoEmail(s) ==> !EmBranco(s)
  {
    if CorpoEmail(s) {
      var i, j :| Decomposicao(s, i, j);
      assert !EspacoBranco(s[i]);
    } else if CasaPadraoEmail(s) {
      var i, j :| Decomposicao(s[..|s| - 1], i, j);
      assert s[..|s| - 1][i] == s[i];
      assert !EspacoBranco(s[i]);
    }
  }

  /** `ValidarFormatoEmail`: false for a blank string, else the pattern. */
  function ValidarFormatoEmail(s: string): (r: bool)
    ensures r <==> CasaPadraoEmail(s)
  {
    if EmBranco(s) then
      CasaPadraoNaoEmBranco(s);
      false
    else
      EhCorpoEmail(s) || (|s| > 0 && s[|s| - 1] == '\n' && EhCorpoEmail(s[..|s| - 1]))
  }

  // ---------------------------------------------------------------------
  // The property setters' checks

  /** The `Id` setter. */
  function VerificarId(id: Int32): (r: Outcome<Erro>)
    ensures r.Pass? <==> id > 0
    ensures r.Fail? ==> r.error.DadosInvalidos? && r.error.campo == "Id"
  {
    if id <= 0 then Fail(DadosInvalidos("Id", MSG_ID)) else Pass
  }

  /** The `Nome` setter: not blank, and at least three characters counting
      any surrounding white space. */
  function VerificarNome(nome: string): (r: Outcome<Erro>)
    ensures r.Pass? <==> !EmBranco(nome) && ComprimentoUtf16(nome) >= 3
    ensures r.Fail? ==> r.error.DadosInvalidos? && r.error.campo == "Nome"
    ensures EmBranco(nome) ==> r == Fail(DadosInvalidos("Nome", MSG_NOME_VAZIO))
    ensures !EmBranco(nome) && ComprimentoUtf16(nome) < 3 ==> r == Fail(DadosInvalidos("Nome", MSG_NOME_CURTO))
  {
    if EmBranco(nome) then Fail(DadosInvalidos("Nome", MSG_NOME_VAZIO))
    else if ComprimentoUtf16(nome) < 3 then Fail(DadosInvalidos("Nome", MSG_NOME_CURTO))
    else Pass
  }

  /** The `Email` setter: not blank, and matching the pattern. */
  function VerificarEmail(email: string): (r: Outcome<Erro>)
    ensures r.Pass? <==> CasaPadraoEmail(email)
    ensures r.Fail? ==> r.error.DadosInvalidos? && r.error.campo == "Email"
    ensures EmBranco(email) ==> r == Fail(DadosInvalidos("Email", MSG_EMAIL_VAZIO))
  {
    if EmBranco(email) then Fail(DadosInvalidos("Email", MSG_EMAIL_VAZIO))
    else if !ValidarFormatoEmail(email) then Fail(DadosInvalidos("Email", MSG_EMAIL_FORMATO))
    else Pass
  }

  /** What the `Telefone` setter stores: the empty string, or nine or more
      decimal digits and nothing else. */
  predicate TelefoneNormal(t: string)
  {
    t == [] || (|t| >= 9 && forall i :: 0 <= i < |t| ==> EDigito(t[i]))
  }

  /** The `Telefone` setter: a blank phone becomes empty; any other keeps
      only its digits, of which there must be at least nine. */
  function NormalizarTelefone(telefone: string): (r: Result<string, Erro>)
    ensures r.Success? ==> TelefoneNormal(r.value)
    ensures r.Success? <==> EmBranco(telefone) || |ApenasDigitos(telefone)| >= 9
    ensures r.Success? && !EmBranco(telefone) ==> r.value == ApenasDigitos(telefone)
    ensures r.Failure? ==> r.error.DadosInvalidos? && r.error.campo == "Telefone"
  {
    if EmBranco(telefone) then Success("")
    else
      var apenasNumeros := ApenasDigitos(telefone);
      if |apenasNumeros| < 9 then Failure(DadosInvalidos("Telefone", MSG_TELEFONE))
      else Success(apenasNumeros)
  }

  /** A stored phone number goes through the setter unchanged. */
  lemma NormalizarTelefoneIdempotente(t: string)
    requires TelefoneNormal(t)
    ensures NormalizarTelefone(t) == Success(t)
  {
    if t != [] {
      assert !EspacoBranco(t[0]);
      ApenasDigitosIdempotente(t);
    }
  }

  /** Every setter's check holds for the client's data. */
  ghost predicate DadosValidos(d: DadosCliente)
  {
    && d.id > 0 && !EmBranco(d.nome) && ComprimentoUtf16(d.nome) >= 3
    && CasaPadraoEmail(d.email) && TelefoneNormal(d.telefone)
  }

  /** `new Cliente(id, nome, email, telefone)` on values: the four setters
      in order, stopping at the first that throws. */
  function ValidarCliente(id: Int32, nome: string, email: string, telefone: string)
    : (r: Result<DadosCliente, Erro>)
    ensures r.Success? <==>
      id > 0 && VerificarNome(nome).Pass? && VerificarEmail(email).Pass? && NormalizarTelefone(telefone).Success?
    ensures r.Success? ==> DadosValidos(r.value)
    ensures r.Success? ==> r.value.id == id && r.value.nome == nome && r.value.email == email
    ensures r.Success? ==> r.value.telefone == NormalizarTelefone(telefone).value
    ensures r.Failure? ==> r.error.DadosInvalidos?
  {
    if VerificarId(id).Fail? then Failure(VerificarId(id).error)
    else if VerificarNome(nome).Fail? then Failure(VerificarNome(nome).error)
    else if VerificarEmail(email).Fail? then Failure(VerificarEmail(email).error)
    else match NormalizarTelefone(telefone)
      case Failure(e) => Failure(e)
      case Success(t) => Success(DadosCliente(id, nome, email, t))
  }

  /** The error names the first field, in the order Id, Nome, Email,
      Telefone, whose setter rejects its value. */
  lemma ValidarClienteCampoDoErro(id: Int32, nome: string, email: string, telefone: string)
    ensures var r := ValidarCliente(id, nome, email, telefone);
      && (r.Failure? ==> (r.error.campo == "Id" <==> id <= 0))
      && (r.Failure? ==> (r.error.campo == "Nome" <==> id > 0 && VerificarNome(nome).Fail?))
      && (r.Failure? ==> (r.error.campo == "Email" <==>
            id > 0 && VerificarNome(nome).Pass? && VerificarEmail(email).Fail?))
      && (r.Failure? ==> (r.error.campo == "Telefone" <==>
            id > 0 && VerificarNome(nome).Pass? && VerificarEmail(email).Pass?))
  {
  }

  /** Re-creating a client from its own data (as loading the client file
      does) succeeds exactly for valid data, and gives the same data. */
  lemma ValidarClienteReconstroi(d: DadosCliente)
    ensures ValidarCliente(d.id, d.nome, d.email, d.telefone) == Success(d) <==> DadosValidos(d)
  {
    if DadosValidos(d) {
      NormalizarTelefoneIdempotente(d.telefone);
    }
  }

  // ---------------------------------------------------------------------
  // Texts

  /** `ObterInformacoes()`: three lines; a blank phone reads "Não informado". */
  function ObterInformacoes(d: DadosCliente): string
  {
    "Cliente #" + IntParaTexto(d.id) + ": " + d.nome + "\n"
      + "Email: " + d.email + "\n"
      + "Telefone: " + (if EmBranco(d.telefone) then "Não informado" else d.telefone)
  }

  /** `ToString()`. */
  function ParaTexto(d: DadosCliente): string
  {
    "[" + IntParaTexto(d.id) + "] " + d.nome + " - " + d.email
  }

  /** The information text shows the name, the e-mail and the phone or,
      when there is none, says so. */
  lemma InformacoesMostram(d: DadosCliente)
    ensures Contem(ObterInformacoes(d), d.nome)
    ensures Contem(ObterInformacoes(d), d.email)
    ensures EmBranco(d.telefone) ==> Contem(ObterInformacoes(d), "Não informado")
    ensures !EmBranco(d.telefone) ==> Contem(ObterInformacoes(d), d.telefone)
  {
    var id := IntParaTexto(d.id);
    var fone := if EmBranco(d.telefone) then "Não informado" else d.telefone;
    var l1 := "Cliente #" + id + ": " + d.nome;
    ContemMeio("Cliente #" + id + ": ", d.nome, "");
    assert "Cliente #" + id + ": " + d.nome + "" == l1;
    ContemAntes(l1, "\n", d.nome);
    ContemAntes(l1 + "\n", "Email: ", d.nome);
    ContemAntes(l1 + "\n" + "Email: ", d.email, d.nome);
    ContemMeio(l1 + "\n" + "Email: ", d.email, "");
    assert l1 + "\n" + "Email: " + d.email + "" == l1 + "\n" + "Email: " + d.email;
    var l2 := l1 + "\n" + "Email: " + d.email;
    ContemAntes(l2, "\n", d.nome);
    ContemAntes(l2, "\n", d.email);
    ContemAntes(l2 + "\n", "Telefone: ", d.nome);
    ContemAntes(l2 + "\n", "Telefone: ", d.email);
    ContemAntes(l2 + "\n" + "Telefone: ", fone, d.nome);
    ContemAntes(l2 + "\n" + "Telefone: ", fone, d.email);
    ContemMeio(l2 + "\n" + "Telefone: ", fone, "");
    assert l2 + "\n" + "Telefone: " + fone + "" == ObterInformacoes(d);
  }

  /** The short text shows the name and the e-mail. */
  lemma ParaTextoMostra(d: DadosCliente)
    ensures Contem(ParaTexto(d), d.nome) && Contem(ParaTexto(d), d.email)
  {
    var a := "[" + IntParaTexto(d.id) + "] ";
    ContemMeio(a, d.nome, "");
    assert a + d.nome + "" == a + d.nome;
    ContemAntes(a + d.nome, " - ", d.nome);
    ContemAntes(a + d.nome + " - ", d.email, d.nome);
    ContemMeio(a + d.nome + " - ", d.email, "");
    assert a + d.nome + " - " + d.email + "" == ParaTexto(d);
  }

  // ---------------------------------------------------------------------
  // The object

  class Cliente {
    var id: Int32
    var nome: string
    var email: string
    var telefone: string

    /** The client's properties as a value. */
    function Dados(): (d: DadosCliente)
      reads this
      ensures d.id == id && d.nome == nome && d.email == email && d.telefone == telefone
    {
      DadosCliente(id, nome, email, telefone)
    }

    /** Every property holds what its setter accepts. */
    ghost predicate Valid()
      reads this
    {
      DadosValidos(Dados())
    }

    /** The fields before any setter has run (C# defaults). */
    constructor ()
      ensures id == 0 && nome == [] && email == [] && telefone == []
    {
      id, nome, email, telefone := 0, [], [], [];
    }

    /** `Id = valor`. */
    method DefinirId(valor: Int32) returns (o: Outcome<Erro>)
      modifies this`id
      ensures o == VerificarId(valor)
      ensures id == (if o.Pass? then valor else old(id))
      ensures old(Valid()) ==> Valid()
    {
      o := VerificarId(valor);
      if o.Pass? {
        id := valor;
      }
    }

    /** `Nome = valor`. */
    method DefinirNome(valor: string) returns (o: Outcome<Erro>)
      modifies this`nome
      ensures o == VerificarNome(valor)
      ensures nome == (if o.Pass? then valor else old(nome))
      ensures old(Valid()) ==> Valid()
    {
      o := VerificarNome(valor);
      if o.Pass? {
        nome := valor;
      }
    }

    /** `Email = valor`. */
    method DefinirEmail(valor: string) returns (o: Outcome<Erro>)
      modifies this`email
      ensures o == VerificarEmail(valor)
      ensures email == (if o.Pass? then valor else old(email))
      ensures old(Valid()) ==> Valid()
    {
      o := VerificarEmail(valor);
      if o.Pass? {
        email := valor;
      }
    }

    /** `Telefone = valor`: stores the normalised number. */
    method DefinirTelefone(valor: string) returns (o: Outcome<Erro>)
      modifies this`telefone
      ensures o.Pass? <==> NormalizarTelefone(valor).Success?
      ensures o.Fail? ==> o.error == NormalizarTelefone(valor).error
      ensures telefone == (if o.Pass? then NormalizarTelefone(valor).value else old(telefone))
      ensures old(Valid()) ==> Valid()
    {
      var r := NormalizarTelefone(valor);
      if r.Success? {
        telefone := r.value;
        o := Pass;
      } else {
        o := Fail(r.error);
      }
    }

    /** `new Cliente(id, nome, email, telefone)`: a new object whose setters
        run in order; the first that throws discards the object. */
    static method Novo(id: Int32, nome: string, email: string, telefone: string)
      returns (r: Result<Cliente, Erro>)
      ensures r.Success? <==> ValidarCliente(id, nome, email, telefone).Success?
      ensures r.Failure? ==> r.error == ValidarCliente(id, nome, email, telefone).error
      ensures r.Success? ==> fresh(r.value) && r.value.Valid()
      ensures r.Success? ==> r.value.Dados() == ValidarCliente(id, nome, email, telefone).value
    {
      var c := new Cliente();
      var o := c.DefinirId(id);
      if o.Fail? { return Failure(o.error); }
      o := c.DefinirNome(nome);
      if o.Fail? { return Failure(o.error); }
      o := c.DefinirEmail(email);
      if o.Fail? { return Failure(o.error); }
      o := c.DefinirTelefone(telefone);
      if o.Fail? { return Failure(o.error); }
      return Success(c);
    }
  }
}
