/** The client repository (Data/RepositorioBase.cs, RepositorioCliente.cs):
    a list of references to `Cliente` objects, backed by a JSON file of
    their properties. The service changes a stored client through the
    reference `ObterPorId` returns, so the list holds objects, and every
    query is stated on the list's value view, `Vista()`. */
module RepositorioClientes {
  import opened Wrappers
  import opened Sequencias
  import opened Texto
  import opened Erros
  import opened Clientes
  import opened Ficheiros

  const MSG_EMAIL_DUPLICADO := "Já existe um cliente com este email."

  /** The ids of a list of clients, in order. */
  function IdsDe(ds: seq<DadosCliente>): (r: seq<Int32>)
    ensures |r| == |ds| && forall i :: 0 <= i < |ds| ==> r[i] == ds[i].id
  {
    seq(|ds|, i requires 0 <= i < |ds| => ds[i].id)
  }

  /** `EmailJaExiste(email, idIgnorar)`: false for a blank e-mail; otherwise
      whether some client other than the one with id `idIgnorar` has the
      e-mail, ignoring case. */
  predicate EmailExisteEm(ds: seq<DadosCliente>, email: string, idIgnorar: Option<int>)
  {
    && !EmBranco(email)
    && exists i :: 0 <= i < |ds| && IgualSemCaso(ds[i].email, email)
                   && (idIgnorar.None? || ds[i].id != idIgnorar.value)
  }

  /** No two clients have the same e-mail, ignoring case. */
  ghost predicate EmailsUnicos(ds: seq<DadosCliente>)
  {
    forall i, j :: 0 <= i < j < |ds| ==> !IgualSemCaso(ds[i].email, ds[j].email)
  }

  /** No two clients have the same id. */
  ghost predicate IdsUnicos(ds: seq<DadosCliente>)
  {
    forall i, j :: 0 <= i < j < |ds| ==> ds[i].id != ds[j].id
  }

  /** The position of the first client with the id. */
  function IndiceId(ds: seq<DadosCliente>, id: int): (r: Option<nat>)
    ensures r.None? <==> id !in IdsDe(ds)
    ensures r.Some? ==> r.value < |ds| && ds[r.value].id == id
    ensures r.Some? ==> forall j :: 0 <= j < r.value ==> ds[j].id != id
  {
    PrimeiroIndice(ds, (d: DadosCliente) => d.id == id)
  }

  /** `ObterPorEmail`: none for a blank e-mail, else the position of the
      first client with that e-mail, ignoring case. */
  function IndiceEmail(ds: seq<DadosCliente>, email: string): (r: Option<nat>)
    ensures r.None? <==> EmBranco(email) || forall i :: 0 <= i < |ds| ==> !IgualSemCaso(ds[i].email, email)
    ensures r.Some? ==> r.value < |ds| && IgualSemCaso(ds[r.value].email, email)
    ensures r.Some? ==> forall j :: 0 <= j < r.value ==> !IgualSemCaso(ds[j].email, email)
  {
    if EmBranco(email) then None
    else PrimeiroIndice(ds, (d: DadosCliente) => IgualSemCaso(d.email, email))
  }

  /** The e-mail the service's `EmailDisponivel` reports as free is one no
      client has; with uniqueness, `ObterPorEmail` then finds nothing. */
  lemma EmailExisteSeEncontrado(ds: seq<DadosCliente>, email: string)
    ensures EmailExisteEm(ds, email, None) <==> IndiceEmail(ds, email).Some?
  {
    if IndiceEmail(ds, email).Some? {
      var k := IndiceEmail(ds, email).value;
      assert IgualSemCaso(ds[k].email, email);
    }
  }

  // ---------------------------------------------------------------------
  // Ordering by name

  /** `OrderBy(c => c.Nome)` over (element, name) pairs. */
  function OrdenarPorNome<T>(ps: seq<(T, string)>): (r: seq<(T, string)>)
    ensures multiset(r) == multiset(ps)
    ensures forall i, j :: 0 <= i < j < |r| ==> OrdinalMenorIgual(r[i].1, r[j].1)
  {
    OrdinalPreOrdemTotal();
    OrdenarPor(ps, (p: (T, string)) => p.1, OrdinalMenorIgual)
  }

  /** `BuscarPorNome`: nothing for a blank query, else the pairs whose name
      contains the query, ignoring case, ordered by name. */
  function BuscarNome<T>(ps: seq<(T, string)>, consulta: string): (r: seq<(T, string)>)
    ensures EmBranco(consulta) ==> r == []
    ensures !EmBranco(consulta) ==>
      multiset(r) == multiset(Filtrar(ps, (p: (T, string)) => ContemSemCaso(p.1, consulta)))
    ensures forall i :: 0 <= i < |r| ==> r[i] in ps && ContemSemCaso(r[i].1, consulta)
    ensures forall i, j :: 0 <= i < j < |r| ==> OrdinalMenorIgual(r[i].1, r[j].1)
  {
    if EmBranco(consulta) then []
    else
      var achados := Filtrar(ps, (p: (T, string)) => ContemSemCaso(p.1, consulta));
      var r := OrdenarPorNome(achados);
      assert forall i :: 0 <= i < |r| ==> r[i] in multiset(achados);
      r
  }

  /** Sorting by name is stable: the elements with a given name come out in
      the order they went in. */
  lemma OrdenarPorNomeEstavel<T>(ps: seq<(T, string)>, nome: string)
    ensures Filtrar(OrdenarPorNome(ps), (p: (T, string)) => p.1 == nome)
         == Filtrar(ps, (p: (T, string)) => p.1 == nome)
  {
    OrdinalPreOrdemTotal();
    var chave := (p: (T, string)) => p.1;
    var mesma := MesmaChave(chave, OrdinalMenorIgual, nome);
    var igual := (p: (T, string)) => p.1 == nome;
    OrdenarPorEstavel(ps, chave, OrdinalMenorIgual, nome);
    var r := OrdenarPorNome(ps);
    forall i | 0 <= i < |r| ensures mesma(r[i]) == igual(r[i]) {
      MesmaChaveENome(r[i], nome);
    }
    forall i | 0 <= i < |ps| ensures mesma(ps[i]) == igual(ps[i]) {
      MesmaChaveENome(ps[i], nome);
    }
    FiltrarMesmoPredicado(r, mesma, igual);
    FiltrarMesmoPredicado(ps, mesma, igual);
  }

  /** Under the ordinal order, having the same key as `nome` means having
      `nome` as name. */
  lemma MesmaChaveENome<T>(p: (T, string), nome: string)
    ensures MesmaChave((p: (T, string)) => p.1, OrdinalMenorIgual, nome)(p) == (p.1 == nome)
  {
    OrdinalTotal(nome, nome);
    if OrdinalMenorIgual(p.1, nome) && OrdinalMenorIgual(nome, p.1) {
      OrdinalAntissimetrica(p.1, nome);
    }
  }

  /** The element paired with each client: the client with its name. */
  function Pares(cs: seq<Clientes.Cliente>): (r: seq<(Clientes.Cliente, string)>)
    reads cs
    ensures |r| == |cs| && forall i :: 0 <= i < |cs| ==> r[i] == (cs[i], cs[i].nome)
  {
    if |cs| == 0 then [] else Pares(cs[..|cs| - 1]) + [(cs[|cs| - 1], cs[|cs| - 1].nome)]
  }

  /** A name search over the (client, name) pairs of a list of clients
      yields clients of that list whose name contains the query, ordered by
      name. */
  lemma BuscarNomeEmClientes(cs: seq<Clientes.Cliente>, nome: string)
    ensures var r := Primeiros(BuscarNome(Pares(cs), nome));
      && (forall i :: 0 <= i < |r| ==> r[i] in cs && ContemSemCaso(r[i].nome, nome))
      && (forall i, j :: 0 <= i < j < |r| ==> OrdinalMenorIgual(r[i].nome, r[j].nome))
  {
    var ps := Pares(cs);
    var achados := BuscarNome(ps, nome);
    var r := Primeiros(achados);
    forall i | 0 <= i < |achados| ensures achados[i].1 == r[i].nome && r[i] in cs {
      var k :| 0 <= k < |ps| && ps[k] == achados[i];
    }
    forall i, j | 0 <= i < j < |r| ensures OrdinalMenorIgual(r[i].nome, r[j].nome) {
      assert OrdinalMenorIgual(achados[i].1, achados[j].1);
    }
  }

  /** ... and misses none of them. */
  lemma BuscarNomeCompleto(cs: seq<Clientes.Cliente>, nome: string)
    ensures !EmBranco(nome) ==> forall i :: 0 <= i < |cs| && ContemSemCaso(cs[i].nome, nome) ==>
      cs[i] in Primeiros(BuscarNome(Pares(cs), nome))
  {
    if !EmBranco(nome) {
      var ps := Pares(cs);
      var achados := BuscarNome(ps, nome);
      var p := (q: (Clientes.Cliente, string)) => ContemSemCaso(q.1, nome);
      forall i | 0 <= i < |cs| && ContemSemCaso(cs[i].nome, nome)
        ensures cs[i] in Primeiros(achados)
      {
        assert p(ps[i]);
        assert ps[i] in multiset(Filtrar(ps, p));
        var k :| 0 <= k < |achados| && achados[k] == ps[i];
        assert Primeiros(achados)[k] == cs[i];
      }
    }
  }

  /** The first components. */
  function Primeiros<T>(ps: seq<(T, string)>): (r: seq<T>)
    ensures |r| == |ps| && forall i :: 0 <= i < |ps| ==> r[i] == ps[i].0
  {
    seq(|ps|, i requires 0 <= i < |ps| => ps[i].0)
  }

  /** The properties of each client in a list of references. */
  function VistaDe(cs: seq<Clientes.Cliente>): (r: seq<DadosCliente>)
    reads cs
    ensures |r| == |cs| && forall i :: 0 <= i < |cs| ==> r[i] == cs[i].Dados()
  {
    seq(|cs|, i requires 0 <= i < |cs| reads cs => cs[i].Dados())
  }

  /** No reference occurs twice. */
  ghost predicate Distintos(cs: seq<Clientes.Cliente>)
  {
    forall i, j :: 0 <= i < j < |cs| ==> cs[i] != cs[j]
  }

  // ---------------------------------------------------------------------
  // Loading

  /** Deserializing one record calls the client constructor with its
      properties. */
  function Construir(d: DadosCliente): (r: Result<DadosCliente, Erro>)
    ensures r.Success? ==> DadosValidos(r.value)
    ensures DadosValidos(d) ==> r == Success(d)
  {
    ValidarClienteReconstroi(d);
    ValidarCliente(d.id, d.nome, d.email, d.telefone)
  }

  /** Deserializing the client list constructs each record in turn,
      stopping at the first that throws. */
  function ValidarTodos(registos: seq<DadosCliente>): (r: Result<seq<DadosCliente>, Erro>)
    ensures r.Success? <==> forall i :: 0 <= i < |registos| ==> Construir(registos[i]).Success?
    ensures r.Success? ==> |r.value| == |registos|
    ensures r.Success? ==> forall i :: 0 <= i < |registos| ==> r.value[i] == Construir(registos[i]).value
  {
    if |registos| == 0 then Success([])
    else match Construir(registos[0])
      case Failure(e) => Failure(e)
      case Success(d) =>
        match ValidarTodos(registos[1..])
        case Failure(e) =>
          assert forall i :: 0 <= i < |registos| - 1 ==> registos[1..][i] == registos[i + 1];
          Failure(e)
        case Success(resto) =>
          assert forall i :: 1 <= i < |registos| ==> registos[i] == registos[1..][i - 1];
          Success([d] + resto)
  }

  /** The error of the whole list is that of its first record that fails. */
  lemma {:induction false} ValidarTodosPrimeiraFalha(registos: seq<DadosCliente>, i: nat)
    requires i < |registos| && Construir(registos[i]).Failure?
    requires forall k :: 0 <= k < i ==> Construir(registos[k]).Success?
    ensures ValidarTodos(registos) == Failure(Construir(registos[i]).error)
  {
    if i > 0 {
      assert forall k :: 0 <= k < i - 1 ==> registos[1..][k] == registos[k + 1];
      ValidarTodosPrimeiraFalha(registos[1..], i - 1);
    }
  }

  /** A new client in front of a list of distinct clients. */
  lemma PrefixarCliente(c: Clientes.Cliente, cs: seq<Clientes.Cliente>, novos: seq<Clientes.Cliente>)
    requires Distintos(cs) && c !in cs && novos == [c] + cs
    ensures Distintos(novos) && VistaDe(novos) == [c.Dados()] + VistaDe(cs)
  {
    forall i, j | 0 <= i < j < |novos| ensures novos[i] != novos[j] {
      if i > 0 {
        assert novos[i] == cs[i - 1];
      }
    }
  }

  /** Deserializing the records into objects: a new client per record,
      built by its constructor, stopping at the first that throws. */
  method ConstruirClientes(registos: seq<DadosCliente>) returns (r: Result<seq<Clientes.Cliente>, Erro>)
    ensures r.Failure? <==> ValidarTodos(registos).Failure?
    ensures r.Failure? ==> r.error == ValidarTodos(registos).error
    ensures r.Success? ==> VistaDe(r.value) == ValidarTodos(registos).value
    ensures r.Success? ==> Distintos(r.value) && forall i :: 0 <= i < |r.value| ==> fresh(r.value[i])
    decreases |registos|
  {
    if |registos| == 0 {
      return Success([]);
    }
    var d := registos[0];
    var c := Clientes.Cliente.Novo(d.id, d.nome, d.email, d.telefone);
    if c.Failure? {
      return Failure(c.error);
    }
    var resto := ConstruirClientes(registos[1..]);
    if resto.Failure? {
      return Failure(resto.error);
    }
    assert c.value !in resto.value;
    var novos := [c.value] + resto.value;
    PrefixarCliente(c.value, resto.value, novos);
    r := Success(novos);
  }

  /** `Carregar` on values: `None` when nothing is to be loaded. */
  function CarregarDe(caminho: string, f: Ficheiro<DadosCliente>): (r: Result<Option<seq<DadosCliente>>, Erro>)
    ensures r.Success? && r.value.Some? ==> forall i :: 0 <= i < |r.value.value| ==> DadosValidos(r.value.value[i])
    ensures r.Failure? ==> r.error.Persistencia? && r.error.causa.Some?
    ensures r == Success(None) <==> Ler(f, caminho) == Success(None)
    ensures Ler(f, caminho).Failure? ==> r == Failure(Ler(f, caminho).error)
    ensures f.existe && f.legivel && f.conteudo.Nulo? ==> r == Success(Some([]))
    ensures f.existe && f.legivel && f.conteudo.Registos? ==>
      var v := ValidarTodos(f.conteudo.registos);
      r == if v.Success? then Success(Some(v.value)) else Failure(ErroCarregar(caminho, v.error))
  {
    match Ler(f, caminho)
    case Failure(e) => Failure(e)
    case Success(None) => Success(None)
    case Success(Some(registos)) =>
      match ValidarTodos(registos)
      case Failure(e) => Failure(ErroCarregar(caminho, e))
      case Success(ds) => Success(Some(ds))
  }

  /** Saving valid clients and loading them back gives the same clients. */
  lemma {:induction false} CarregarAposGuardar(caminho: string, f: Ficheiro<DadosCliente>, ds: seq<DadosCliente>)
    requires forall i :: 0 <= i < |ds| ==> DadosValidos(ds[i])
    requires f.gravavel && f.legivel
    ensures Escrever(f, caminho, ds).Success?
    ensures CarregarDe(caminho, Escrever(f, caminho, ds).value) == Success(Some(ds))
  {
    LerAposEscrever(f, caminho, ds);
    assert ValidarTodos(ds).value == ds;
  }

  /** Appending a client whose e-mail is new keeps the e-mails distinct. */
  lemma AcrescentarMantemEmailsUnicos(ds: seq<DadosCliente>, d: DadosCliente)
    requires EmailsUnicos(ds) && !EmailExisteEm(ds, d.email, None) && !EmBranco(d.email)
    ensures EmailsUnicos(ds + [d])
  {
    var ds' := ds + [d];
    forall i, j | 0 <= i < j < |ds'| ensures !IgualSemCaso(ds'[i].email, ds'[j].email) {
      if j == |ds| {
        assert ds'[i] == ds[i];
      }
    }
  }

  /** Changing the e-mail of the client with id `id` to one that
      `EmailExisteEm(ds, email, Some(id))` rejects nowhere keeps the e-mails
      distinct, when ids are distinct. */
  lemma TrocarEmailMantemEmailsUnicos(ds: seq<DadosCliente>, k: nat, email: string)
    requires EmailsUnicos(ds) && IdsUnicos(ds) && k < |ds| && !EmBranco(email)
    requires !EmailExisteEm(ds, email, Some(ds[k].id))
    ensures EmailsUnicos(ds[k := ds[k].(email := email)])
  {
    var ds' := ds[k := ds[k].(email := email)];
    forall i, j | 0 <= i < j < |ds'| ensures !IgualSemCaso(ds'[i].email, ds'[j].email) {
      if i == k {
        assert ds[j].id != ds[k].id;
      } else if j == k {
        assert ds[i].id != ds[k].id;
      }
    }
  }

  /** Every client passed its setters. */
  ghost predicate TodosValidos(ds: seq<DadosCliente>)
  {
    forall i :: 0 <= i < |ds| ==> DadosValidos(ds[i])
  }

  /** Removing a client keeps the others valid. */
  lemma RemoverEmTodosValidos(ds: seq<DadosCliente>, k: nat)
    requires k < |ds| && TodosValidos(ds)
    ensures TodosValidos(RemoverEm(ds, k))
  {
    var r := RemoverEm(ds, k);
    forall i | 0 <= i < |r| ensures DadosValidos(r[i]) {
      assert r[i] == ds[if i < k then i else i + 1];
    }
  }

  /** Replacing a client by a valid one keeps the list valid. */
  lemma TrocarEmTodosValidos(ds: seq<DadosCliente>, k: nat, d: DadosCliente)
    requires k < |ds| && TodosValidos(ds) && DadosValidos(d)
    ensures TodosValidos(ds[k := d])
  {
  }

  /** Removing a reference removes its properties from the view. */
  lemma VistaDeRemoverEm(cs: seq<Clientes.Cliente>, k: nat)
    requires k < |cs|
    ensures VistaDe(RemoverEm(cs, k)) == RemoverEm(VistaDe(cs), k)
  {
    var r := RemoverEm(cs, k);
    var v := VistaDe(cs);
    var a, b := VistaDe(r), RemoverEm(v, k);
    assert |a| == |b|;
    forall i | 0 <= i < |a| ensures a[i] == b[i] {
      var i' := if i < k then i else i + 1;
      assert r[i] == cs[i'] && b[i] == v[i'];
    }
  }

  /** Removing a reference keeps the others distinct. */
  lemma RemoverEmDistintos(cs: seq<Clientes.Cliente>, k: nat)
    requires k < |cs| && Distintos(cs)
    ensures Distintos(RemoverEm(cs, k))
  {
    var r := RemoverEm(cs, k);
    forall i, j | 0 <= i < j < |r| ensures r[i] != r[j] {
      var i', j' := if i < k then i else i + 1, if j < k then j else j + 1;
      assert r[i] == cs[i'] && r[j] == cs[j'] && i' < j';
    }
  }

  /** Appending a reference not yet in the list keeps it distinct. */
  lemma AcrescentarDistintos(cs: seq<Clientes.Cliente>, c: Clientes.Cliente, depois: seq<Clientes.Cliente>)
    requires Distintos(cs) && c !in cs && depois == cs + [c]
    ensures Distintos(depois)
  {
    forall i, j | 0 <= i < j < |depois| ensures depois[i] != depois[j] {
      assert depois[i] == cs[i];
    }
  }

  /** Removing a client keeps the others' e-mails distinct. */
  lemma RemoverEmEmailsUnicos(ds: seq<DadosCliente>, k: nat)
    requires k < |ds| && EmailsUnicos(ds)
    ensures EmailsUnicos(RemoverEm(ds, k))
  {
    var r := RemoverEm(ds, k);
    forall i, j | 0 <= i < j < |r| ensures !IgualSemCaso(r[i].email, r[j].email) {
      var i', j' := if i < k then i else i + 1, if j < k then j else j + 1;
      assert r[i] == ds[i'] && r[j] == ds[j'] && i' < j';
    }
  }

  // ---------------------------------------------------------------------
  // The repository object

  class RepositorioCliente {
    const caminhoFicheiro: string
    var entidades: seq<Clientes.Cliente>
    var ficheiro: Ficheiro<DadosCliente>

    /** Every stored client passed its setters. */
    ghost predicate Valid()
      reads this`entidades, entidades
    {
      TodosValidos(Vista())
    }

    /** The stored clients' properties, in order. */
    function Vista(): (r: seq<DadosCliente>)
      reads this`entidades, entidades
      ensures |r| == |entidades|
    {
      VistaDe(entidades)
    }

    /** `new RepositorioCliente()`: an empty list over the file at `caminhoFicheiro`. */
    constructor (caminhoFicheiro: string, ficheiro: Ficheiro<DadosCliente>)
      ensures this.caminhoFicheiro == caminhoFicheiro && this.ficheiro == ficheiro
      ensures entidades == [] && Valid()
    {
      this.caminhoFicheiro := caminhoFicheiro;
      this.ficheiro := ficheiro;
      entidades := [];
    }

    /** `ObterTodos()`: a copy of the list of references. */
    function ObterTodos(): (r: seq<Clientes.Cliente>)
      reads this`entidades
      ensures |r| == Contar()
    {
      entidades
    }

    /** `Contar()`. */
    function Contar(): (n: nat)
      reads this`entidades
      ensures n == |entidades|
    {
      |entidades|
    }

    /** `ObterPorId(id)`: the first client with the id, or not found. */
    function ObterPorId(id: int): (r: Result<Clientes.Cliente, Erro>)
      reads this`entidades, entidades
      ensures r.Failure? <==> id !in IdsDe(Vista())
      ensures r.Failure? ==> r.error == EntidadeNaoEncontrada("Cliente", id)
      ensures r.Success? ==> r.value in entidades && r.value.id == id
      ensures r.Success? ==> r.value == entidades[IndiceId(Vista(), id).value]
    {
      match IndiceId(Vista(), id)
      case None => Failure(EntidadeNaoEncontrada("Cliente", id))
      case Some(k) => Success(entidades[k])
    }

    /** `ObterPorEmail(email)`: `None` stands for the null it returns. */
    function ObterPorEmail(email: string): (r: Option<Clientes.Cliente>)
      reads this`entidades, entidades
      ensures r.None? <==> IndiceEmail(Vista(), email).None?
      ensures r.Some? ==> r.value in entidades && IgualSemCaso(r.value.email, email)
    {
      match IndiceEmail(Vista(), email)
      case None => None
      case Some(k) => Some(entidades[k])
    }

    /** `EmailJaExiste(email, idIgnorar)`. */
    predicate EmailJaExiste(email: string, idIgnorar: Option<int>)
      reads this`entidades, entidades
    {
      EmailExisteEm(Vista(), email, idIgnorar)
    }

    /** `BuscarPorNome(nome)`. */
    function BuscarPorNome(nome: string): (r: seq<Clientes.Cliente>)
      reads this`entidades, entidades
      ensures EmBranco(nome) ==> r == []
      ensures forall i :: 0 <= i < |r| ==> r[i] in entidades && ContemSemCaso(r[i].nome, nome)
      ensures forall i, j :: 0 <= i < j < |r| ==> OrdinalMenorIgual(r[i].nome, r[j].nome)
      ensures !EmBranco(nome) ==>
        forall i :: 0 <= i < |entidades| && ContemSemCaso(entidades[i].nome, nome) ==> entidades[i] in r
    {
      BuscarNomeEmClientes(entidades, nome);
      BuscarNomeCompleto(entidades, nome);
      Primeiros(BuscarNome(Pares(entidades), nome))
    }

    /** `GerarProximoId()`. */
    function GerarProximoId(): (r: Int32)
      reads this`entidades, entidades
      ensures |entidades| == 0 ==> r == 1
    {
      ProximoId(IdsDe(Vista()))
    }

    /** `Adicionar(entidade)`: refuses null and an e-mail already taken;
        otherwise appends. A constructed client is always valid. */
    method Adicionar(entidade: Clientes.Cliente?) returns (r: Result<bool, Erro>)
      requires Valid()
      requires entidade != null ==> entidade.Valid()
      modifies this`entidades
      ensures Valid()
      ensures entidade == null ==> r == Failure(EntidadeNula())
      ensures entidade != null ==> (r.Failure? <==> old(EmailJaExiste(entidade.email, None)))
      ensures entidade != null && r.Failure? ==> r.error == DadosInvalidos("Email", MSG_EMAIL_DUPLICADO)
      ensures r.Success? ==> r.value && entidade !in old(entidades) && entidades == old(entidades) + [entidade]
      ensures r.Success? ==> Vista() == old(Vista()) + [entidade.Dados()]
      ensures r.Failure? ==> entidades == old(entidades)
    {
      if entidade == null {
        return Failure(EntidadeNula());
      }
      if EmailJaExiste(entidade.email, None) {
        return Failure(DadosInvalidos("Email", MSG_EMAIL_DUPLICADO));
      }
      ghost var antes := Vista();
      forall k | 0 <= k < |entidades| ensures entidades[k] != entidade {
        assert !IgualSemCaso(antes[k].email, entidade.email);
      }
      entidades := entidades + [entidade];
      assert Vista() == antes + [entidade.Dados()];
      r := Success(true);
    }

    /** `Atualizar(entidade)`: replace the first client with the entity's id. */
    method Atualizar(entidade: Clientes.Cliente?) returns (r: Result<bool, Erro>)
      requires Valid()
      requires entidade != null ==> entidade.Valid()
      modifies this`entidades
      ensures Valid()
      ensures entidade == null ==> r == Failure(EntidadeNula()) && entidades == old(entidades)
      ensures entidade != null ==> (r.Failure? <==> entidade.id !in old(IdsDe(Vista())))
      ensures entidade != null && r.Failure? ==>
        r.error == EntidadeNaoEncontrada("Cliente", entidade.id) && entidades == old(entidades)
      ensures r.Success? ==>
        (r.value && entidades == old(entidades)[old(IndiceId(Vista(), entidade.id)).value := entidade])
    {
      if entidade == null {
        return Failure(EntidadeNula());
      }
      match IndiceId(Vista(), entidade.id)
      case None =>
        r := Failure(EntidadeNaoEncontrada("Cliente", entidade.id));
      case Some(k) =>
        entidades := entidades[k := entidade];
        r := Success(true);
    }

    /** `Remover(id)`: drop the first client with the id. */
    method Remover(id: int) returns (r: Result<bool, Erro>)
      requires Valid()
      modifies this`entidades
      ensures Valid()
      ensures r.Failure? <==> id !in old(IdsDe(Vista()))
      ensures r.Failure? ==> r.error == EntidadeNaoEncontrada("Cliente", id) && entidades == old(entidades)
      ensures r.Success? ==> r.value && entidades == RemoverEm(old(entidades), old(IndiceId(Vista(), id)).value)
      ensures r.Success? ==> Vista() == RemoverEm(old(Vista()), old(IndiceId(Vista(), id)).value)
    {
      match IndiceId(Vista(), id)
      case None =>
        r := Failure(EntidadeNaoEncontrada("Cliente", id));
      case Some(k) =>
        ghost var antes := Vista();
        ghost var antigas := entidades;
        ghost var depois := RemoverEm(antes, k);
        RemoverEmTodosValidos(antes, k);
        entidades := RemoverEm(entidades, k);
        assert Vista() == depois;
        r := Success(true);
    }

    /** `Guardar()`: write every client's properties; a failed write throws
        and leaves the file as it was. */
    method Guardar() returns (r: Result<bool, Erro>)
      modifies this`ficheiro
      ensures r.Success? <==> old(ficheiro).gravavel
      ensures r.Success? ==> r.value && ficheiro == Escrever(old(ficheiro), caminhoFicheiro, Vista()).value
      ensures r.Failure? ==> r.error == ErroGuardar(caminhoFicheiro) && ficheiro == old(ficheiro)
      ensures Vista() == old(Vista())
    {
      match Escrever(ficheiro, caminhoFicheiro, Vista())
      case Failure(e) =>
        r := Failure(e);
      case Success(f) =>
        ficheiro := f;
        r := Success(true);
    }

    /** `Carregar()`: builds a new object per record through the client
        constructor; the list is kept as it was when there is nothing to
        load or loading throws. */
    method Carregar() returns (r: Result<bool, Erro>)
      requires Valid()
      modifies this`entidades
      ensures Valid()
      ensures var c := CarregarDe(caminhoFicheiro, ficheiro);
        && (c.Failure? ==> r == Failure(c.error) && entidades == old(entidades))
        && (c == Success(None) ==> r == Success(false) && entidades == old(entidades))
        && (c.Success? && c.value.Some? ==> r == Success(true) && Vista() == c.value.value)
      ensures r == Success(true) ==> Distintos(entidades) && forall i :: 0 <= i < |entidades| ==> fresh(entidades[i])
    {
      ghost var c := CarregarDe(caminhoFicheiro, ficheiro);
      var lido := Ler(ficheiro, caminhoFicheiro);
      if lido.Failure? {
        assert c == Failure(lido.error);
        return Failure(lido.error);
      }
      if lido.value.None? {
        assert c == Success(None);
        return Success(false);
      }
      var cs := ConstruirClientes(lido.value.value);
      if cs.Failure? {
        assert c == Failure(ErroCarregar(caminhoFicheiro, cs.error));
        return Failure(ErroCarregar(caminhoFicheiro, cs.error));
      }
      assert c == Success(Some(ValidarTodos(lido.value.value).value));
      entidades := cs.value;
      r := Success(true);
    }
  }
}
