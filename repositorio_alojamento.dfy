/** The hotel and apartment repositories (Data/RepositorioBase.cs,
    RepositorioHotel.cs, RepositorioApartamento.cs): an in-memory list of
    accommodations of one kind, backed by a JSON file. The two classes differ
    only in the kind's name, their file name, and the hotels' extra
    `ObterMaisCaros`, so they are one class with the kind as a constant.
    What each operation computes is a function on the list; the class
    methods update the list to what those functions give. */
module RepositorioAlojamentos {
  import opened Wrappers
  import opened Sequencias
  import opened Texto
  import opened Erros
  import opened Alojamentos
  import opened Ficheiros

  /** Which of the two repositories: `RepositorioHotel` or `RepositorioApartamento`. */
  datatype Tipo = TipoHotel | TipoApartamento

  /** The kind's name in the not-found exception. */
  function NomeTipo(t: Tipo): string
  {
    if t == TipoHotel then "Hotel" else "Apartamento"
  }

  /** The file name each repository passes to the base constructor. */
  function NomeFicheiro(t: Tipo): string
  {
    if t == TipoHotel then "hoteis.json" else "apartamentos.json"
  }

  /** `a` is of the repository's element type. */
  predicate DoTipo(a: Alojamento, t: Tipo)
  {
    if t == TipoHotel then a.Hotel? else a.Apartamento?
  }

  /** Every element went through its constructor and is of the kind. */
  ghost predicate Consistente(s: seq<Alojamento>, t: Tipo)
  {
    forall i :: 0 <= i < |s| ==> Valido(s[i]) && DoTipo(s[i], t)
  }

  /** The ids of the list, in order. */
  function Ids(s: seq<Alojamento>): (r: seq<Int32>)
    ensures |r| == |s| && forall i :: 0 <= i < |s| ==> r[i] == s[i].id
  {
    seq(|s|, i requires 0 <= i < |s| => s[i].id)
  }

  /** No two elements share an id. */
  ghost predicate IdsUnicos(s: seq<Alojamento>)
  {
    forall i, j :: 0 <= i < j < |s| ==> s[i].id != s[j].id
  }

  // ---------------------------------------------------------------------
  // The operations, on the list

  /** `FindIndex(a => a.Id == id)`, with `None` for -1. */
  function IndiceDe(s: seq<Alojamento>, id: int): (r: Option<nat>)
    ensures r.None? <==> id !in Ids(s)
    ensures r.Some? ==> r.value < |s| && s[r.value].id == id
    ensures r.Some? ==> forall j :: 0 <= j < r.value ==> s[j].id != id
  {
    PrimeiroIndice(s, (a: Alojamento) => a.id == id)
  }

  /** `ObterPorId`: the first element with the id, or not found. */
  function ProcurarPorId(s: seq<Alojamento>, t: Tipo, id: int): (r: Result<Alojamento, Erro>)
    ensures r.Failure? <==> id !in Ids(s)
    ensures r.Failure? ==> r.error == EntidadeNaoEncontrada(NomeTipo(t), id)
    ensures r.Success? ==> r.value.id == id && r.value in s
    ensures r.Success? ==> exists k :: 0 <= k < |s| && s[k] == r.value && forall j :: 0 <= j < k ==> s[j].id != id
  {
    match IndiceDe(s, id)
    case None => Failure(EntidadeNaoEncontrada(NomeTipo(t), id))
    case Some(k) => Success(s[k])
  }

  /** `Adicionar`: a null entity is refused; anything else is appended,
      whether or not its id is already taken. */
  function Acrescentar(s: seq<Alojamento>, e: Option<Alojamento>): (r: Result<seq<Alojamento>, Erro>)
    ensures r.Failure? <==> e.None?
    ensures r.Failure? ==> r.error == EntidadeNula()
    ensures r.Success? ==> |r.value| == |s| + 1 && r.value[..|s|] == s && r.value[|s|] == e.value
  {
    match e
    case None => Failure(EntidadeNula())
    case Some(a) => Success(s + [a])
  }

  /** `Atualizar`: replace the first element with the entity's id. */
  function Substituir(s: seq<Alojamento>, t: Tipo, e: Option<Alojamento>): (r: Result<seq<Alojamento>, Erro>)
    ensures e.None? ==> r == Failure(EntidadeNula())
    ensures e.Some? ==> (r.Failure? <==> e.value.id !in Ids(s))
    ensures e.Some? && r.Failure? ==> r.error == EntidadeNaoEncontrada(NomeTipo(t), e.value.id)
    ensures r.Success? ==> |r.value| == |s| && multiset(Ids(r.value)) == multiset(Ids(s))
    ensures r.Success? ==> ProcurarPorId(r.value, t, e.value.id) == Success(e.value)
    ensures r.Success? ==> forall i :: 0 <= i < |s| && r.value[i] != s[i] ==> i == IndiceDe(s, e.value.id).value
  {
    match e
    case None => Failure(EntidadeNula())
    case Some(a) =>
      match IndiceDe(s, a.id)
      case None => Failure(EntidadeNaoEncontrada(NomeTipo(t), a.id))
      case Some(k) =>
        var r := s[k := a];
        assert Ids(r) == Ids(s);
        assert IndiceDe(r, a.id) == Some(k);
        Success(r)
  }

  /** `Remover`: drop the first element with the id. */
  function Retirar(s: seq<Alojamento>, t: Tipo, id: int): (r: Result<seq<Alojamento>, Erro>)
    ensures r.Failure? <==> id !in Ids(s)
    ensures r.Failure? ==> r.error == EntidadeNaoEncontrada(NomeTipo(t), id)
    ensures r.Success? ==> |r.value| == |s| - 1
    ensures r.Success? ==> multiset(r.value) + multiset{ProcurarPorId(s, t, id).value} == multiset(s)
    ensures r.Success? ==> IndiceDe(s, id).Some? && r.value == RemoverEm(s, IndiceDe(s, id).value)
  {
    match IndiceDe(s, id)
    case None => Failure(EntidadeNaoEncontrada(NomeTipo(t), id))
    case Some(k) => Success(RemoverEm(s, k))
  }

  /** `GerarProximoId`: one more than the largest id, 1 for an empty list. */
  function ProximoIdDe(s: seq<Alojamento>): (r: Int32)
    ensures |s| == 0 ==> r == 1
  {
    ProximoId(Ids(s))
  }

  /** `BuscarPorEndereco`: a blank query finds nothing; otherwise the
      elements whose address contains the query, ignoring case, in order. */
  function BuscarEndereco(s: seq<Alojamento>, consulta: string): (r: seq<Alojamento>)
    ensures EmBranco(consulta) ==> r == []
    ensures forall i :: 0 <= i < |r| ==> r[i] in s && ContemSemCaso(r[i].endereco, consulta)
    ensures !EmBranco(consulta) ==>
      forall i :: 0 <= i < |s| && ContemSemCaso(s[i].endereco, consulta) ==> s[i] in r
    ensures !EmBranco(consulta) ==> |r| == |PosicoesQue(s, NoEndereco(consulta))|
    ensures !EmBranco(consulta) ==>
      forall j :: 0 <= j < |r| ==> r[j] == s[PosicoesQue(s, NoEndereco(consulta))[j]]
  {
    if EmBranco(consulta) then []
    else
      FiltrarPosicoes(s, NoEndereco(consulta));
      Filtrar(s, NoEndereco(consulta))
  }

  /** The condition of `Where(h => h.Endereco.Contains(...))`. */
  function NoEndereco(consulta: string): Alojamento -> bool
  {
    (a: Alojamento) => ContemSemCaso(a.endereco, consulta)
  }

  /** The key of `OrderByDescending(h => h.PrecoPorNoite)`. */
  function Preco(a: Alojamento): real { a.precoPorNoite }

  /** Descending order on prices. */
  predicate NaoMaisBarato(x: real, y: real) { x >= y }

  lemma NaoMaisBaratoPreOrdem()
    ensures PreOrdemTotal(NaoMaisBarato)
  {
  }

  /** `ObterMaisCaros(quantidade)`: the list sorted by price, dearest
      first and ties in list order, then its first `quantidade` elements. */
  function MaisCaros(s: seq<Alojamento>, quantidade: int): (r: seq<Alojamento>)
    ensures |r| == if quantidade <= 0 then 0 else if quantidade < |s| then quantidade else |s|
    ensures forall i, j :: 0 <= i < j < |r| ==> Preco(r[i]) >= Preco(r[j])
    ensures multiset(r) <= multiset(s)
  {
    NaoMaisBaratoPreOrdem();
    var ordenados := OrdenarPor(s, Preco, NaoMaisBarato);
    var r := Tomar(ordenados, quantidade);
    assert multiset(ordenados) == multiset(r) + multiset(ordenados[|r|..]) by {
      assert ordenados == r + ordenados[|r|..];
    }
    r
  }

  // ---------------------------------------------------------------------
  // Loading: each record goes through the constructor of the kind

  /** Deserializing one record calls the kind's constructor with the
      record's properties; a property the record lacks takes its default. */
  function Desserializar(t: Tipo, registo: Alojamento): (r: Result<Alojamento, Erro>)
    ensures r.Success? ==> Valido(r.value) && DoTipo(r.value, t)
    ensures Valido(registo) && DoTipo(registo, t) ==> r == Success(registo)
  {
    if t == TipoHotel then
      NovoHotel(registo.id, registo.endereco, registo.precoPorNoite,
                if registo.Hotel? then registo.numeroEstrelas else 0)
    else
      NovoApartamento(registo.id, registo.endereco, registo.precoPorNoite,
                      if registo.Apartamento? then registo.numeroQuartos else 0,
                      registo.Apartamento? && registo.temGaragem)
  }

  /** Deserializing the whole list stops at the first record that throws. */
  function DesserializarTodos(t: Tipo, registos: seq<Alojamento>): (r: Result<seq<Alojamento>, Erro>)
    ensures r.Success? <==> forall i :: 0 <= i < |registos| ==> Desserializar(t, registos[i]).Success?
    ensures r.Success? ==> |r.value| == |registos| && Consistente(r.value, t)
    ensures r.Success? ==> forall i :: 0 <= i < |registos| ==> r.value[i] == Desserializar(t, registos[i]).value
    ensures r.Failure? ==> exists i :: 0 <= i < |registos| && Desserializar(t, registos[i]) == Failure(r.error)
  {
    if |registos| == 0 then Success([])
    else match Desserializar(t, registos[0])
      case Failure(e) => Failure(e)
      case Success(a) =>
        match DesserializarTodos(t, registos[1..])
        case Failure(e) =>
          assert forall i :: 0 <= i < |registos| - 1 ==> registos[1..][i] == registos[i + 1];
          Failure(e)
        case Success(resto) =>
          assert forall i :: 1 <= i < |registos| ==> registos[i] == registos[1..][i - 1];
          Success([a] + resto)
  }

  /** `Carregar` on values: `None` when the list is left as it was. */
  function CarregarDe(t: Tipo, caminho: string, f: Ficheiro<Alojamento>): (r: Result<Option<seq<Alojamento>>, Erro>)
    ensures r.Success? && r.value.Some? ==> Consistente(r.value.value, t)
    ensures r.Failure? ==> r.error.Persistencia? && r.error.causa.Some?
    ensures r == Success(None) <==> Ler(f, caminho) == Success(None)
    ensures Ler(f, caminho).Failure? ==> r == Failure(Ler(f, caminho).error)
    ensures f.existe && f.legivel && f.conteudo.Nulo? ==> r == Success(Some([]))
    ensures f.existe && f.legivel && f.conteudo.Registos? ==>
      var d := DesserializarTodos(t, f.conteudo.registos);
      r == if d.Success? then Success(Some(d.value)) else Failure(ErroCarregar(caminho, d.error))
  {
    match Ler(f, caminho)
    case Failure(e) => Failure(e)
    case Success(None) => Success(None)
    case Success(Some(registos)) =>
      match DesserializarTodos(t, registos)
      case Failure(e) => Failure(ErroCarregar(caminho, e))
      case Success(es) => Success(Some(es))
  }

  // ---------------------------------------------------------------------
  // Properties

  /** Whatever list a repository holds, saving it and loading it back gives
      the same list. */
  lemma {:induction false} CarregarAposGuardar(t: Tipo, caminho: string, f: Ficheiro<Alojamento>, s: seq<Alojamento>)
    requires Consistente(s, t) && f.gravavel && f.legivel
    ensures Escrever(f, caminho, s).Success?
    ensures CarregarDe(t, caminho, Escrever(f, caminho, s).value) == Success(Some(s))
  {
    LerAposEscrever(f, caminho, s);
    var r := DesserializarTodos(t, s);
    assert r.Success?;
    assert r.value == s;
  }

  /** After an append the new element is found by its id unless an earlier
      element has the same id, which then shadows it. */
  lemma ProcurarAposAcrescentar(s: seq<Alojamento>, t: Tipo, a: Alojamento)
    ensures a.id !in Ids(s) ==> ProcurarPorId(s + [a], t, a.id) == Success(a)
    ensures a.id in Ids(s) ==> ProcurarPorId(s + [a], t, a.id) == ProcurarPorId(s, t, a.id)
  {
    var s' := s + [a];
    assert Ids(s') == Ids(s) + [a.id];
    assert forall i :: 0 <= i < |s| ==> s'[i] == s[i];
    if a.id !in Ids(s) {
      assert IndiceDe(s', a.id) == Some(|s|);
    } else {
      assert IndiceDe(s', a.id) == IndiceDe(s, a.id);
    }
  }

  /** Removing the id of an element just appended undoes the append, when
      that id was new. */
  lemma RetirarDesfazAcrescentar(s: seq<Alojamento>, t: Tipo, a: Alojamento)
    requires a.id !in Ids(s)
    ensures Retirar(s + [a], t, a.id) == Success(s)
  {
    var s' := s + [a];
    assert Ids(s') == Ids(s) + [a.id];
    assert IndiceDe(s', a.id) == Some(|s|);
    assert RemoverEm(s', |s|) == s;
  }

  /** With distinct ids, the removed id is gone afterwards. */
  lemma RetirarRemoveId(s: seq<Alojamento>, t: Tipo, id: int)
    requires IdsUnicos(s) && id in Ids(s)
    ensures Retirar(s, t, id).Success?
    ensures id !in Ids(Retirar(s, t, id).value)
    ensures IdsUnicos(Retirar(s, t, id).value)
  {
    var k := IndiceDe(s, id).value;
    var r := RemoverEm(s, k);
    forall i | 0 <= i < |r| ensures r[i].id != id {
      if i < k { assert r[i] == s[i]; } else { assert r[i] == s[i + 1]; }
    }
    forall i, j | 0 <= i < j < |r| ensures r[i].id != r[j].id {
      var i' := if i < k then i else i + 1;
      var j' := if j < k then j else j + 1;
      assert r[i] == s[i'] && r[j] == s[j'];
    }
  }

  /** Below the 32-bit limit, the generated id is positive and new, so
      appending an entity with it keeps the ids distinct. */
  lemma ProximoIdNovo(s: seq<Alojamento>, t: Tipo, a: Alojamento)
    requires Consistente(s, t) && IdsUnicos(s)
    requires forall i :: 0 <= i < |s| ==> s[i].id < INT32_MAX
    requires a.id == ProximoIdDe(s)
    ensures a.id > 0 && a.id !in Ids(s)
    ensures IdsUnicos(s + [a])
  {
    var ids := Ids(s);
    assert forall i :: 0 <= i < |ids| ==> ids[i] < INT32_MAX;
    if |s| > 0 {
      assert Valido(s[0]);
      assert ids[0] < a.id;
    }
    forall i, j | 0 <= i < j < |s + [a]| ensures (s + [a])[i].id != (s + [a])[j].id {
      if j == |s| {
        assert (s + [a])[i].id == ids[i];
      }
    }
  }

  /** `ObterMaisCaros` returns the dearest: every element it leaves out
      costs no more than any element it returns. */
  lemma {:induction false} MaisCarosSaoOsMaisCaros(s: seq<Alojamento>, quantidade: int)
    ensures var r := MaisCaros(s, quantidade);
      forall x, y :: x in r && y in multiset(s) - multiset(r) ==> Preco(x) >= Preco(y)
  {
    NaoMaisBaratoPreOrdem();
    var ordenados := OrdenarPor(s, Preco, NaoMaisBarato);
    var r := MaisCaros(s, quantidade);
    assert r == ordenados[..|r|];
    var resto := ordenados[|r|..];
    assert ordenados == r + resto;
    MultisetResto(r, resto);
    forall x, y | x in r && y in multiset(resto) ensures Preco(x) >= Preco(y) {
      OrdenadaPrefixoAntes(ordenados, Preco, NaoMaisBarato, |r|, x, y);
    }
  }

  // ---------------------------------------------------------------------
  // The repository object

  class RepositorioAlojamento {
    const tipo: Tipo
    const caminhoFicheiro: string
    var entidades: seq<Alojamento>
    var ficheiro: Ficheiro<Alojamento>

    ghost predicate Valid()
      reads this`entidades
    {
      Consistente(entidades, tipo)
    }

    /** `new RepositorioHotel()` / `new RepositorioApartamento()`: an empty
        list over the file at `caminhoFicheiro`. */
    constructor (tipo: Tipo, caminhoFicheiro: string, ficheiro: Ficheiro<Alojamento>)
      ensures this.tipo == tipo && this.caminhoFicheiro == caminhoFicheiro
      ensures this.ficheiro == ficheiro && entidades == []
      ensures Valid()
    {
      this.tipo := tipo;
      this.caminhoFicheiro := caminhoFicheiro;
      this.ficheiro := ficheiro;
      entidades := [];
    }

    /** `ObterTodos()`: a copy of the list. */
    function ObterTodos(): (r: seq<Alojamento>)
      reads this`entidades
      ensures |r| == Contar()
    {
      entidades
    }

    /** `Contar()`. */
    function Contar(): (n: nat)
      reads this`entidades
      ensures n == |entidades|
    {
      |entidades|
    }

    /** `Adicionar(entidade)`. A constructed hotel or apartment is always
        valid, hence the precondition. */
    method Adicionar(entidade: Option<Alojamento>) returns (r: Result<bool, Erro>)
      requires Valid()
      requires entidade.Some? ==> Valido(entidade.value) && DoTipo(entidade.value, tipo)
      modifies this`entidades
      ensures Valid()
      ensures r.Success? <==> Acrescentar(old(entidades), entidade).Success?
      ensures r.Success? ==> r.value && entidades == Acrescentar(old(entidades), entidade).value
      ensures r.Failure? ==> r.error == EntidadeNula() && entidades == old(entidades)
    {
      match Acrescentar(entidades, entidade)
      case Failure(e) =>
        r := Failure(e);
      case Success(s) =>
        entidades := s;
        r := Success(true);
    }

    /** `ObterPorId(id)`. */
    function ObterPorId(id: int): Result<Alojamento, Erro>
      reads this`entidades
    {
      ProcurarPorId(entidades, tipo, id)
    }

    /** `Atualizar(entidade)`. */
    method Atualizar(entidade: Option<Alojamento>) returns (r: Result<bool, Erro>)
      requires Valid()
      requires entidade.Some? ==> Valido(entidade.value) && DoTipo(entidade.value, tipo)
      modifies this`entidades
      ensures Valid()
      ensures r.Success? <==> Substituir(old(entidades), tipo, entidade).Success?
      ensures r.Success? ==> r.value && entidades == Substituir(old(entidades), tipo, entidade).value
      ensures r.Failure? ==> r.error == Substituir(old(entidades), tipo, entidade).error
      ensures r.Failure? ==> entidades == old(entidades)
    {
      match Substituir(entidades, tipo, entidade)
      case Failure(e) =>
        r := Failure(e);
      case Success(s) =>
        entidades := s;
        r := Success(true);
    }

    /** `Remover(id)`. */
    method Remover(id: int) returns (r: Result<bool, Erro>)
      requires Valid()
      modifies this`entidades
      ensures Valid()
      ensures r.Success? <==> Retirar(old(entidades), tipo, id).Success?
      ensures r.Success? ==> r.value && entidades == Retirar(old(entidades), tipo, id).value
      ensures r.Failure? ==> r.error == Retirar(old(entidades), tipo, id).error
      ensures r.Failure? ==> entidades == old(entidades)
    {
      match Retirar(entidades, tipo, id)
      case Failure(e) =>
        r := Failure(e);
      case Success(s) =>
        var k := IndiceDe(entidades, id).value;
        assert s == RemoverEm(entidades, k);
        entidades := s;
        r := Success(true);
    }

    /** `GerarProximoId()`. */
    function GerarProximoId(): Int32
      reads this`entidades
    {
      ProximoIdDe(entidades)
    }

    /** `BuscarPorEndereco(endereco)`. */
    function BuscarPorEndereco(endereco: string): seq<Alojamento>
      reads this`entidades
    {
      BuscarEndereco(entidades, endereco)
    }

    /** `ObterMaisCaros(quantidade)`, which only the hotel repository has. */
    function ObterMaisCaros(quantidade: int): seq<Alojamento>
      reads this`entidades
      requires tipo == TipoHotel
    {
      MaisCaros(entidades, quantidade)
    }

    /** `Guardar()`: write the list; a failed write throws and leaves the
        file as it was. */
    method Guardar() returns (r: Result<bool, Erro>)
      modifies this`ficheiro
      ensures r.Success? <==> old(ficheiro).gravavel
      ensures r.Success? ==> r.value && ficheiro == Escrever(old(ficheiro), caminhoFicheiro, entidades).value
      ensures r.Failure? ==> r.error == ErroGuardar(caminhoFicheiro) && ficheiro == old(ficheiro)
    {
      match Escrever(ficheiro, caminhoFicheiro, entidades)
      case Failure(e) =>
        r := Failure(e);
      case Success(f) =>
        ficheiro := f;
        r := Success(true);
    }

    /** `Carregar()`: `false` and nothing changed when there is nothing to
        load; the loaded list otherwise; the list is kept when loading throws. */
    method Carregar() returns (r: Result<bool, Erro>)
      requires Valid()
      modifies this`entidades
      ensures Valid()
      ensures var c := CarregarDe(tipo, caminhoFicheiro, ficheiro);
        && (c.Failure? ==> r == Failure(c.error) && entidades == old(entidades))
        && (c == Success(None) ==> r == Success(false) && entidades == old(entidades))
        && (c.Success? && c.value.Some? ==> r == Success(true) && entidades == c.value.value)
    {
      match CarregarDe(tipo, caminhoFicheiro, ficheiro)
      case Failure(e) =>
        r := Failure(e);
      case Success(None) =>
        r := Success(false);
      case Success(Some(es)) =>
        entidades := es;
        r := Success(true);
    }
  }
}
