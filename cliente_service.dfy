/** The client service (Business/ClienteService.cs): the business layer over
    the client repository. Its state-changing operations wrap whatever
    goes wrong in a general error carrying their own message; an update
    runs the client's setters one after another on the stored object. */
module ServicoClientes {
  import opened Wrappers
  import opened Sequencias
  import opened Texto
  import opened Erros
  import opened Clientes
  import opened Ficheiros
  import opened RepositorioClientes

  const NOME_FICHEIRO := "clientes.json"
  const MSG_ADICIONAR := "Erro ao adicionar cliente."
  const MSG_ATUALIZAR := "Erro ao atualizar cliente."
  const MSG_REMOVER := "Erro ao remover cliente."
  const MSG_EMAIL_EM_USO := "Este email já está em uso por outro cliente."

  // ---------------------------------------------------------------------
  // Updating a stored client

  /** The client after `Atualizar`'s three setters (`Nome`, `Email`,
      `Telefone`, in that order) and what the last one that ran reported:
      the first that throws stops the rest, and what the earlier ones
      stored stays stored. */
  function AplicarAlteracoes(d: DadosCliente, nome: string, email: string, telefone: string)
    : (r: (DadosCliente, Outcome<Erro>))
    ensures r.0.id == d.id
    ensures r.1.Pass? <==>
      VerificarNome(nome).Pass? && VerificarEmail(email).Pass? && NormalizarTelefone(telefone).Success?
    ensures r.1.Pass? && d.id > 0 ==> r.0 == ValidarCliente(d.id, nome, email, telefone).value
    ensures VerificarNome(nome).Fail? ==> r == (d, VerificarNome(nome))
    ensures VerificarNome(nome).Pass? && VerificarEmail(email).Fail? ==>
      r == (d.(nome := nome), VerificarEmail(email))
    ensures VerificarNome(nome).Pass? && VerificarEmail(email).Pass? && NormalizarTelefone(telefone).Failure? ==>
      r == (d.(nome := nome, email := email), Fail(NormalizarTelefone(telefone).error))
    ensures r.1.Pass? ==>
      r.0 == d.(nome := nome, email := email, telefone := NormalizarTelefone(telefone).value)
    ensures r.1.Fail? ==> r.1.error.DadosInvalidos?
    ensures r.0.email == d.email || (r.0.email == email && VerificarEmail(email).Pass?)
    ensures DadosValidos(d) ==> DadosValidos(r.0)
  {
    if VerificarNome(nome).Fail? then (d, VerificarNome(nome))
    else
      var d1 := d.(nome := nome);
      if VerificarEmail(email).Fail? then (d1, VerificarEmail(email))
      else
        var d2 := d1.(email := email);
        match NormalizarTelefone(telefone)
        case Failure(e) => (d2, Fail(e))
        case Success(t) => (d2.(telefone := t), Pass)
  }

  /** `AplicarAlteracoes` on the first client with the id, in place. */
  function AlterarEm(ds: seq<DadosCliente>, id: int, nome: string, email: string, telefone: string)
    : (r: (seq<DadosCliente>, Outcome<Erro>))
    requires id in IdsDe(ds)
    ensures |r.0| == |ds|
    ensures forall i :: 0 <= i < |ds| && ds[i].id != id ==> r.0[i] == ds[i]
    ensures forall i :: 0 <= i < |ds| && i != IndiceId(ds, id).value ==> r.0[i] == ds[i]
    ensures var k := IndiceId(ds, id).value;
      r.0[k] == AplicarAlteracoes(ds[k], nome, email, telefone).0
      && r.1 == AplicarAlteracoes(ds[k], nome, email, telefone).1
  {
    var k := IndiceId(ds, id).value;
    var a := AplicarAlteracoes(ds[k], nome, email, telefone);
    (ds[k := a.0], a.1)
  }

  /** When every setter accepts, updating a stored client leaves exactly
      what creating it afresh with the same id would. */
  lemma AlteracoesComoNovo(d: DadosCliente, nome: string, email: string, telefone: string)
    requires DadosValidos(d)
    ensures AplicarAlteracoes(d, nome, email, telefone).1.Pass? <==>
      ValidarCliente(d.id, nome, email, telefone).Success?
    ensures AplicarAlteracoes(d, nome, email, telefone).1.Pass? ==>
      AplicarAlteracoes(d, nome, email, telefone).0 == ValidarCliente(d.id, nome, email, telefone).value
  {
  }

  /** Replacing a client by one with the same id and either the same
      e-mail or a non-blank one no other id uses keeps e-mails and ids
      distinct. */
  lemma AlterarMantemUnicidade(ds: seq<DadosCliente>, k: nat, d: DadosCliente)
    requires EmailsUnicos(ds) && IdsUnicos(ds) && k < |ds| && d.id == ds[k].id
    requires d.email == ds[k].email || (!EmBranco(d.email) && !EmailExisteEm(ds, d.email, Some(d.id)))
    ensures EmailsUnicos(ds[k := d]) && IdsUnicos(ds[k := d])
  {
    var ds' := ds[k := d];
    forall i, j | 0 <= i < j < |ds'| ensures !IgualSemCaso(ds'[i].email, ds'[j].email) {
      if i == k && d.email != ds[k].email {
        assert ds[j].id != ds[k].id;
      } else if j == k && d.email != ds[k].email {
        assert ds[i].id != ds[k].id;
      }
    }
  }

  /** Appending a valid client whose id is the next id and whose e-mail
      nobody has keeps e-mails and ids distinct. */
  lemma AcrescentarMantemUnicidade(ds: seq<DadosCliente>, d: DadosCliente, depois: seq<DadosCliente>)
    requires DadosValidos(d) && !EmailExisteEm(ds, d.email, None)
    requires d.id == ProximoId(IdsDe(ds))
    requires depois == ds + [d]
    ensures EmailsUnicos(ds) && IdsUnicos(ds) ==> EmailsUnicos(depois) && IdsUnicos(depois)
  {
    if EmailsUnicos(ds) && IdsUnicos(ds) {
      CasaPadraoNaoEmBranco(d.email);
      IdNovoAcimaDeTodos(ds, d.id);
      AcrescentarMantemEmailsUnicos(ds, d);
    }
  }

  /** Removing a client keeps e-mails and ids distinct. */
  lemma RemoverMantemUnicidade(ds: seq<DadosCliente>, k: nat)
    requires EmailsUnicos(ds) && IdsUnicos(ds) && k < |ds|
    ensures EmailsUnicos(RemoverEm(ds, k)) && IdsUnicos(RemoverEm(ds, k))
  {
    RemoverEmEmailsUnicos(ds, k);
    var r := RemoverEm(ds, k);
    forall i, j | 0 <= i < j < |r| ensures r[i].id != r[j].id {
      var i', j' := if i < k then i else i + 1, if j < k then j else j + 1;
      assert r[i] == ds[i'] && r[j] == ds[j'];
    }
  }

  /** The first components of two permutations are permutations. */
  lemma {:induction false} PrimeirosPermutacao<T>(ps: seq<(T, string)>, qs: seq<(T, string)>)
    requires multiset(ps) == multiset(qs)
    ensures multiset(Primeiros(ps)) == multiset(Primeiros(qs))
  {
    if |ps| > 0 {
      var x := ps[0];
      assert x in multiset(qs);
      var j :| 0 <= j < |qs| && qs[j] == x;
      var qs' := RemoverEm(qs, j);
      assert ps == [x] + ps[1..];
      assert multiset(ps) == multiset{x} + multiset(ps[1..]);
      MultisetCancelar(multiset(ps[1..]), multiset(qs'), x);
      PrimeirosPermutacao(ps[1..], qs');
      PrimeirosCabeca(ps);
      PrimeirosRemoverEm(qs, j);
    } else {
      assert |qs| == |multiset(qs)| == |multiset(ps)| == 0;
    }
  }

  lemma PrimeirosCabeca<T>(ps: seq<(T, string)>)
    requires |ps| > 0
    ensures multiset(Primeiros(ps)) == multiset{ps[0].0} + multiset(Primeiros(ps[1..]))
  {
    assert Primeiros(ps) == [ps[0].0] + Primeiros(ps[1..]);
  }

  lemma PrimeirosRemoverEm<T>(qs: seq<(T, string)>, j: nat)
    requires j < |qs|
    ensures multiset(Primeiros(qs)) == multiset(Primeiros(RemoverEm(qs, j))) + multiset{qs[j].0}
  {
    assert Primeiros(RemoverEm(qs, j)) == RemoverEm(Primeiros(qs), j);
  }

  /** The first components of the (client, name) pairs are the clients. */
  lemma PrimeirosDePares(cs: seq<Clientes.Cliente>)
    ensures Primeiros(Pares(cs)) == cs
  {
  }

  /** `OrderBy(c => c.Nome)` over a list of clients. */
  function OrdenadosPorNome(cs: seq<Clientes.Cliente>): (r: seq<Clientes.Cliente>)
    reads cs
    ensures multiset(r) == multiset(cs)
    ensures forall i, j :: 0 <= i < j < |r| ==> OrdinalMenorIgual(r[i].nome, r[j].nome)
  {
    var ps := Pares(cs);
    var ordenados := OrdenarPorNome(ps);
    PrimeirosPermutacao(ordenados, ps);
    PrimeirosDePares(cs);
    ParesPermutados(ordenados, cs);
    Primeiros(ordenados)
  }

  /** Every pair of a permutation of `Pares(cs)` holds a client and its name. */
  lemma ParesPermutados(qs: seq<(Clientes.Cliente, string)>, cs: seq<Clientes.Cliente>)
    requires multiset(qs) == multiset(Pares(cs))
    ensures forall i :: 0 <= i < |qs| ==> qs[i].1 == qs[i].0.nome
  {
    var ps := Pares(cs);
    forall i | 0 <= i < |qs| ensures qs[i].1 == qs[i].0.nome {
      assert qs[i] in multiset(ps);
      var k :| 0 <= k < |ps| && ps[k] == qs[i];
    }
  }

  // ---------------------------------------------------------------------
  // The service object

  class ServicoCliente {
    const repositorio: RepositorioCliente

    /** The repository is consistent and holds no object twice. */
    ghost predicate Valid()
      reads repositorio`entidades, repositorio.entidades
    {
      repositorio.Valid() && Distintos(repositorio.entidades)
    }

    /** The stored clients' properties. */
    function Vista(): (r: seq<DadosCliente>)
      reads repositorio`entidades, repositorio.entidades
      ensures |r| == repositorio.Contar()
    {
      repositorio.Vista()
    }

    /** `new ClienteService()`: the repository over `clientes.json` in
        `pastaData`, loaded when it can be; a persistence error (every
        error loading raises) leaves it empty. */
    constructor (pastaData: string, ficheiro: Ficheiro<DadosCliente>)
      ensures Valid() && fresh(repositorio)
      ensures repositorio.caminhoFicheiro == Combinar(pastaData, NOME_FICHEIRO)
      ensures repositorio.ficheiro == ficheiro
      ensures var c := CarregarDe(Combinar(pastaData, NOME_FICHEIRO), ficheiro);
        Vista() == (if c.Success? && c.value.Some? then c.value.value else [])
    {
      repositorio := new RepositorioCliente(Combinar(pastaData, NOME_FICHEIRO), ficheiro);
      new;
      var ignorado := repositorio.Carregar();
    }

    /** `Adicionar(nome, email, telefone)`: a client with the next id,
        appended when its e-mail is free, then saved; any error is wrapped.
        A failed save keeps the client in memory. */
    method Adicionar(nome: string, email: string, telefone: string) returns (r: Result<bool, Erro>)
      requires Valid()
      modifies repositorio
      ensures Valid()
      ensures var v := ValidarCliente(old(repositorio.GerarProximoId()), nome, email, telefone);
        v.Failure? ==> r == Failure(Embrulhar(MSG_ADICIONAR, v.error)) && unchanged(repositorio)
      ensures var v := ValidarCliente(old(repositorio.GerarProximoId()), nome, email, telefone);
        v.Success? && old(repositorio.EmailJaExiste(email, None)) ==>
          r == Failure(Embrulhar(MSG_ADICIONAR, DadosInvalidos("Email", MSG_EMAIL_DUPLICADO))) && unchanged(repositorio)
      ensures var v := ValidarCliente(old(repositorio.GerarProximoId()), nome, email, telefone);
        v.Success? && !old(repositorio.EmailJaExiste(email, None)) ==>
          && Vista() == old(Vista()) + [v.value] && (r.Success? <==> old(repositorio.ficheiro).gravavel)
          && (r.Failure? ==> r == Failure(Embrulhar(MSG_ADICIONAR, ErroGuardar(repositorio.caminhoFicheiro))))
      ensures r.Success? ==> (r.value && repositorio.ficheiro == Escrever(old(repositorio.ficheiro), repositorio.caminhoFicheiro, Vista()).value)
      ensures r.Failure? ==> r.error.Geral? && Mensagem(r.error) == MSG_ADICIONAR && repositorio.ficheiro == old(repositorio.ficheiro)
      ensures old(EmailsUnicos(Vista()) && IdsUnicos(Vista())) ==> EmailsUnicos(Vista()) && IdsUnicos(Vista())
    {
      var novoId := repositorio.GerarProximoId();
      var c := Cliente.Novo(novoId, nome, email, telefone);
      if c.Failure? {
        return Failure(Embrulhar(MSG_ADICIONAR, c.error));
      }
      var adicionado := Acrescentar(c.value);
      if adicionado.Failure? {
        return Failure(Embrulhar(MSG_ADICIONAR, adicionado.error));
      }
      r := GuardarEmbrulhado(MSG_ADICIONAR);
    }

    /** The repository's `Adicionar` on a client just built with the next
        id: refuses an e-mail already taken, else appends. */
    method Acrescentar(c: Clientes.Cliente) returns (r: Result<bool, Erro>)
      requires Valid() && c.Valid() && c.id == repositorio.GerarProximoId()
      modifies repositorio`entidades
      ensures Valid()
      ensures r.Failure? <==> old(repositorio.EmailJaExiste(c.email, None))
      ensures r.Failure? ==>
        r.error == DadosInvalidos("Email", MSG_EMAIL_DUPLICADO) && repositorio.entidades == old(repositorio.entidades)
      ensures r.Success? ==> Vista() == old(Vista()) + [c.Dados()]
      ensures old(EmailsUnicos(Vista()) && IdsUnicos(Vista())) ==> EmailsUnicos(Vista()) && IdsUnicos(Vista())
    {
      ghost var antes := Vista();
      r := repositorio.Adicionar(c);
      if r.Success? {
        AcrescentarDistintos(old(repositorio.entidades), c, repositorio.entidades);
        AcrescentarMantemUnicidade(antes, c.Dados(), Vista());
      }
    }

    /** The repository's `Guardar`, its error wrapped with `msg`. */
    method GuardarEmbrulhado(msg: string) returns (r: Result<bool, Erro>)
      modifies repositorio`ficheiro
      ensures r.Success? <==> old(repositorio.ficheiro).gravavel
      ensures r.Success? ==> r.value && repositorio.ficheiro == Escrever(old(repositorio.ficheiro), repositorio.caminhoFicheiro, Vista()).value
      ensures r.Failure? ==> r == Failure(Embrulhar(msg, ErroGuardar(repositorio.caminhoFicheiro))) && repositorio.ficheiro == old(repositorio.ficheiro)
      ensures Vista() == old(Vista())
    {
      var guardado := repositorio.Guardar();
      r := if guardado.Success? then Success(true) else Failure(Embrulhar(msg, guardado.error));
    }

    /** `Atualizar(id, nome, email, telefone)`: refuses an e-mail another
        client has, then the missing id; otherwise runs the setters on the
        stored object and saves. Any error is wrapped; a setter that throws
        leaves the earlier setters' changes in place. */
    method Atualizar(id: Int32, nome: string, email: string, telefone: string) returns (r: Result<bool, Erro>)
      requires Valid()
      modifies repositorio`ficheiro, repositorio.entidades
      ensures Valid()
      ensures repositorio.entidades == old(repositorio.entidades)
      ensures old(repositorio.EmailJaExiste(email, Some(id))) ==>
        && r == Failure(Embrulhar(MSG_ATUALIZAR, DadosInvalidos("Email", MSG_EMAIL_EM_USO)))
        && Vista() == old(Vista())
      ensures !old(repositorio.EmailJaExiste(email, Some(id))) && id !in old(IdsDe(Vista())) ==>
        && r == Failure(Embrulhar(MSG_ATUALIZAR, EntidadeNaoEncontrada("Cliente", id)))
        && Vista() == old(Vista())
      ensures !old(repositorio.EmailJaExiste(email, Some(id))) && id in old(IdsDe(Vista())) ==>
        && Vista() == AlterarEm(old(Vista()), id, nome, email, telefone).0
        && (AlterarEm(old(Vista()), id, nome, email, telefone).1.Fail? ==>
              r == Failure(Embrulhar(MSG_ATUALIZAR, AlterarEm(old(Vista()), id, nome, email, telefone).1.error)))
        && (AlterarEm(old(Vista()), id, nome, email, telefone).1.Pass? ==>
              && (r.Success? <==> old(repositorio.ficheiro).gravavel)
              && (r.Failure? ==> r == Failure(Embrulhar(MSG_ATUALIZAR, ErroGuardar(repositorio.caminhoFicheiro)))))
      ensures r.Success? ==> (r.value && repositorio.ficheiro == Escrever(old(repositorio.ficheiro), repositorio.caminhoFicheiro, Vista()).value)
      ensures r.Failure? ==> r.error.Geral? && Mensagem(r.error) == MSG_ATUALIZAR && repositorio.ficheiro == old(repositorio.ficheiro)
      ensures old(EmailsUnicos(Vista()) && IdsUnicos(Vista())) ==> EmailsUnicos(Vista()) && IdsUnicos(Vista())
    {
      if repositorio.EmailJaExiste(email, Some(id)) {
        return Failure(Embrulhar(MSG_ATUALIZAR, DadosInvalidos("Email", MSG_EMAIL_EM_USO)));
      }
      var existente := repositorio.ObterPorId(id);
      if existente.Failure? {
        return Failure(Embrulhar(MSG_ATUALIZAR, existente.error));
      }
      var o := AlterarGuardado(existente.value, id, nome, email, telefone);
      if o.Fail? {
        return Failure(Embrulhar(MSG_ATUALIZAR, o.error));
      }
      r := GuardarEmbrulhado(MSG_ATUALIZAR);
    }

    /** The setters run on the stored client `c` with the id, whose new
        e-mail no other client has. */
    method AlterarGuardado(c: Clientes.Cliente, id: Int32, nome: string, email: string, telefone: string)
      returns (o: Outcome<Erro>)
      requires Valid() && !repositorio.EmailJaExiste(email, Some(id))
      requires id in IdsDe(Vista()) && c == repositorio.entidades[IndiceId(Vista(), id).value]
      modifies c
      ensures Valid()
      ensures Vista() == AlterarEm(old(Vista()), id, nome, email, telefone).0
      ensures o == AlterarEm(old(Vista()), id, nome, email, telefone).1
      ensures old(EmailsUnicos(Vista()) && IdsUnicos(Vista())) ==> EmailsUnicos(Vista()) && IdsUnicos(Vista())
    {
      ghost var antes := Vista();
      ghost var k := IndiceId(antes, id).value;
      o := AlterarNaLista(repositorio.entidades, k, c, nome, email, telefone);
      TrocarEmTodosValidos(antes, k, c.Dados());
      if EmailsUnicos(antes) && IdsUnicos(antes) {
        CasaPadraoNaoEmBranco(email);
        AlterarMantemUnicidade(antes, k, c.Dados());
      }
    }

    /** `Remover(id)`: drops the first client with the id and saves; any
        error is wrapped. */
    method Remover(id: Int32) returns (r: Result<bool, Erro>)
      requires Valid()
      modifies repositorio`entidades, repositorio`ficheiro
      ensures Valid()
      ensures id !in old(IdsDe(Vista())) ==>
        r == Failure(Embrulhar(MSG_REMOVER, EntidadeNaoEncontrada("Cliente", id))) && unchanged(repositorio)
      ensures id in old(IdsDe(Vista())) ==>
        && Vista() == RemoverEm(old(Vista()), old(IndiceId(Vista(), id)).value)
        && (r.Success? <==> old(repositorio.ficheiro).gravavel)
        && (r.Failure? ==> r == Failure(Embrulhar(MSG_REMOVER, ErroGuardar(repositorio.caminhoFicheiro))))
      ensures r.Success? ==> (r.value && repositorio.ficheiro == Escrever(old(repositorio.ficheiro), repositorio.caminhoFicheiro, Vista()).value)
      ensures r.Failure? ==> r.error.Geral? && Mensagem(r.error) == MSG_REMOVER && repositorio.ficheiro == old(repositorio.ficheiro)
      ensures old(EmailsUnicos(Vista()) && IdsUnicos(Vista())) ==> EmailsUnicos(Vista()) && IdsUnicos(Vista())
    {
      var removido := Retirar(id);
      if removido.Failure? {
        r := Failure(Embrulhar(MSG_REMOVER, removido.error));
      } else {
        r := GuardarEmbrulhado(MSG_REMOVER);
      }
    }

    /** The repository's `Remover`, keeping the service's invariant. */
    method Retirar(id: Int32) returns (r: Result<bool, Erro>)
      requires Valid()
      modifies repositorio`entidades
      ensures Valid()
      ensures r.Failure? <==> id !in old(IdsDe(Vista()))
      ensures r.Failure? ==> r.error == EntidadeNaoEncontrada("Cliente", id) && repositorio.entidades == old(repositorio.entidades)
      ensures r.Success? ==> Vista() == RemoverEm(old(Vista()), old(IndiceId(Vista(), id)).value)
      ensures old(EmailsUnicos(Vista()) && IdsUnicos(Vista())) ==> EmailsUnicos(Vista()) && IdsUnicos(Vista())
    {
      ghost var antes := Vista();
      ghost var k := IndiceId(antes, id);
      r := repositorio.Remover(id);
      if r.Success? {
        RemoverEmDistintos(old(repositorio.entidades), k.value);
        if EmailsUnicos(antes) && IdsUnicos(antes) {
          RemoverMantemUnicidade(antes, k.value);
        }
      }
    }

    /** `ListarTodos()`. */
    function ListarTodos(): (r: seq<Clientes.Cliente>)
      reads repositorio`entidades
      ensures |r| == ContarTotal()
    {
      repositorio.ObterTodos()
    }

    /** `ObterPorId(id)`: the repository's lookup; its not-found error
        reaches the caller unwrapped. */
    function ObterPorId(id: int): (r: Result<Clientes.Cliente, Erro>)
      reads repositorio`entidades, repositorio.entidades
      ensures r.Failure? <==> id !in IdsDe(Vista())
      ensures r.Failure? ==> r.error == EntidadeNaoEncontrada("Cliente", id)
      ensures r.Success? ==> r.value in ListarTodos() && r.value.id == id
      ensures r.Success? ==> r.value == ListarTodos()[IndiceId(Vista(), id).value]
    {
      repositorio.ObterPorId(id)
    }

    /** `ObterPorEmail(email)`: `None` stands for null. */
    function ObterPorEmail(email: string): (r: Option<Clientes.Cliente>)
      reads repositorio`entidades, repositorio.entidades
      ensures r.None? <==> !repositorio.EmailJaExiste(email, None)
      ensures r.Some? ==> r.value in ListarTodos() && IgualSemCaso(r.value.email, email)
    {
      EmailExisteSeEncontrado(Vista(), email);
      repositorio.ObterPorEmail(email)
    }

    /** `BuscarPorNome(nome)`. */
    function BuscarPorNome(nome: string): (r: seq<Clientes.Cliente>)
      reads repositorio`entidades, repositorio.entidades
      ensures EmBranco(nome) ==> r == []
      ensures forall i :: 0 <= i < |r| ==> r[i] in ListarTodos() && ContemSemCaso(r[i].nome, nome)
      ensures forall i, j :: 0 <= i < j < |r| ==> OrdinalMenorIgual(r[i].nome, r[j].nome)
      ensures !EmBranco(nome) ==>
        forall c :: c in ListarTodos() && ContemSemCaso(c.nome, nome) ==> c in r
    {
      repositorio.BuscarPorNome(nome)
    }

    /** `ContarTotal()`. */
    function ContarTotal(): (n: nat)
      reads repositorio`entidades
      ensures n == |repositorio.entidades|
    {
      repositorio.Contar()
    }

    /** `EmailDisponivel(email)`: no client has the e-mail, ignoring case;
        a blank e-mail always counts as available. */
    predicate EmailDisponivel(email: string)
      reads repositorio`entidades, repositorio.entidades
    {
      !repositorio.EmailJaExiste(email, None)
    }

    /** An available e-mail is one `ObterPorEmail` does not find, and a
        blank one is always available. */
    lemma EmailDisponivelSeNaoEncontrado(email: string)
      ensures EmailDisponivel(email) <==> ObterPorEmail(email).None?
      ensures EmBranco(email) ==> EmailDisponivel(email)
    {
    }

    /** `ObterOrdenadosPorNome()`: every client, by name in ordinal order,
        ties in list order. */
    function ObterOrdenadosPorNome(): (r: seq<Clientes.Cliente>)
      reads repositorio`entidades, repositorio.entidades
      ensures multiset(r) == multiset(ListarTodos())
      ensures forall i, j :: 0 <= i < j < |r| ==> OrdinalMenorIgual(r[i].nome, r[j].nome)
    {
      OrdenadosPorNome(repositorio.entidades)
    }
  }

  /** The id `GerarProximoId` gives, when it passes the `Id` setter, is
      above every stored id. */
  lemma IdNovoAcimaDeTodos(ds: seq<DadosCliente>, novoId: Int32)
    requires novoId == ProximoId(IdsDe(ds)) && novoId > 0
    ensures forall i :: 0 <= i < |ds| ==> ds[i].id < novoId
  {
    var ids := IdsDe(ds);
    if INT32_MAX !in ids {
      assert forall i :: 0 <= i < |ids| ==> ids[i] < INT32_MAX;
    }
    assert forall i :: 0 <= i < |ds| ==> ds[i].id == ids[i];
  }

  /** `Atualizar`'s three setters on the stored object. */
  method AplicarEm(c: Clientes.Cliente, nome: string, email: string, telefone: string) returns (o: Outcome<Erro>)
    modifies c
    ensures (c.Dados(), o) == AplicarAlteracoes(old(c.Dados()), nome, email, telefone)
  {
    o := c.DefinirNome(nome);
    if o.Fail? { return; }
    o := c.DefinirEmail(email);
    if o.Fail? { return; }
    o := c.DefinirTelefone(telefone);
  }

  /** `Atualizar`'s setters on the stored object at position `k`: the view
      of the list changes at that position only. */
  method AlterarNaLista(cs: seq<Clientes.Cliente>, ghost k: nat, c: Clientes.Cliente,
                        nome: string, email: string, telefone: string)
    returns (o: Outcome<Erro>)
    requires k < |cs| && cs[k] == c && Distintos(cs)
    modifies c
    ensures var a := AplicarAlteracoes(old(c.Dados()), nome, email, telefone);
      VistaDe(cs) == old(VistaDe(cs))[k := a.0] && o == a.1
  {
    ghost var antes := VistaDe(cs);
    o := AplicarEm(c, nome, email, telefone);
    forall i | 0 <= i < |cs| ensures VistaDe(cs)[i] == antes[k := c.Dados()][i] {
      if i != k {
        assert cs[i] != c;
      }
    }
  }
}
