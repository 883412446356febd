/** The accommodation service (Business/AlojamentoService.cs): the business
    layer over one hotel repository and one apartment repository. It
    creates accommodations with fresh ids, lists, searches, removes, sorts
    and summarises them; every query works on the hotels followed by the
    apartments. */
module ServicoAlojamentos {
  import opened Wrappers
  import opened Sequencias
  import opened Texto
  import opened Erros
  import opened Alojamentos
  import opened Ficheiros
  import opened RepositorioAlojamentos

  /** What a repository holds after the constructor's `Carregar`, whose
      exceptions the service swallows. */
  function CarregadoOuVazio(c: Result<Option<seq<Alojamento>>, Erro>): seq<Alojamento>
  {
    if c.Success? && c.value.Some? then c.value.value else []
  }

  /** No id has reached `int.MaxValue`, so the next one does not wrap. */
  ghost predicate IdsAbaixoDoMaximo(s: seq<Alojamento>)
  {
    forall i :: 0 <= i < |s| ==> s[i].id < INT32_MAX
  }

  // ---------------------------------------------------------------------
  // Lookup across the two lists

  /** The first index of an id in a concatenation is its first index in
      the first part, or else its first index in the second, shifted. */
  lemma IndiceDeConcat(a: seq<Alojamento>, b: seq<Alojamento>, id: int)
    ensures IndiceDe(a, id).Some? ==> IndiceDe(a + b, id) == IndiceDe(a, id)
    ensures IndiceDe(a, id).None? && IndiceDe(b, id).Some? ==>
      IndiceDe(a + b, id) == Some(|a| + IndiceDe(b, id).value)
    ensures IndiceDe(a, id).None? && IndiceDe(b, id).None? ==> IndiceDe(a + b, id).None?
  {
    var ab := a + b;
    assert Ids(ab) == Ids(a) + Ids(b);
    if IndiceDe(a, id).Some? {
      var i := IndiceDe(a, id).value;
      PrimeiroIdEm(ab, id, i);
    } else if IndiceDe(b, id).Some? {
      var j := IndiceDe(b, id).value;
      PrimeiroIdEm(ab, id, |a| + j);
    }
  }

  /** An index holding the id with no earlier one is `IndiceDe`. */
  lemma PrimeiroIdEm(s: seq<Alojamento>, id: int, k: nat)
    requires k < |s| && s[k].id == id
    requires forall j :: 0 <= j < k ==> s[j].id != id
    ensures IndiceDe(s, id) == Some(k)
  {
    assert Ids(s)[k] == id;
  }

  /** Every address contains the empty text, so searching for it keeps
      every accommodation. */
  lemma BuscarVazioDevolveTodos(s: seq<Alojamento>, texto: string)
    ensures texto == "" ==> Filtrar(s, (a: Alojamento) => ContemSemCaso(a.endereco, texto)) == s
  {
    if texto == "" {
      var p := (a: Alojamento) => ContemSemCaso(a.endereco, texto);
      forall i | 0 <= i < |s| ensures p(s[i]) {
        ContemVazio(s[i].endereco);
      }
      FiltrarTodos(s, p);
    }
  }

  // ---------------------------------------------------------------------
  // Prices

  /** `OrderBy(a => a.PrecoPorNoite)`'s order. */
  predicate NaoMaisCaro(x: real, y: real) { x <= y }

  lemma NaoMaisCaroPreOrdem()
    ensures PreOrdemTotal(NaoMaisCaro)
  {
  }

  /** `PrecoPorNoite >= min && PrecoPorNoite <= max`. */
  predicate NoIntervalo(a: Alojamento, min: real, max: real)
  {
    min <= a.precoPorNoite <= max
  }

  /** The condition of `Where(a => a.PrecoPorNoite >= min && a.PrecoPorNoite <= max)`. */
  function NoIntervaloDe(min: real, max: real): Alojamento -> bool
  {
    (a: Alojamento) => NoIntervalo(a, min, max)
  }

  /** The accommodations with one given price. */
  function PrecoIgual(preco: real): Alojamento -> bool
  {
    (a: Alojamento) => Preco(a) == preco
  }

  /** The sum of the prices. */
  function SomaPrecos(s: seq<Alojamento>): real
  {
    if |s| == 0 then 0.0 else Preco(s[0]) + SomaPrecos(s[1..])
  }

  /** `Min(a => a.PrecoPorNoite)`. */
  function MenorPreco(s: seq<Alojamento>): (m: real)
    requires |s| > 0
    ensures exists i :: 0 <= i < |s| && Preco(s[i]) == m
    ensures forall i :: 0 <= i < |s| ==> m <= Preco(s[i])
  {
    if |s| == 1 then Preco(s[0])
    else
      var m := MenorPreco(s[1..]);
      assert forall i :: 1 <= i < |s| ==> s[i] == s[1..][i - 1];
      if Preco(s[0]) <= m then Preco(s[0]) else m
  }

  /** `Max(a => a.PrecoPorNoite)`. */
  function MaiorPreco(s: seq<Alojamento>): (m: real)
    requires |s| > 0
    ensures exists i :: 0 <= i < |s| && Preco(s[i]) == m
    ensures forall i :: 0 <= i < |s| ==> Preco(s[i]) <= m
  {
    if |s| == 1 then Preco(s[0])
    else
      var m := MaiorPreco(s[1..]);
      assert forall i :: 1 <= i < |s| ==> s[i] == s[1..][i - 1];
      if Preco(s[0]) >= m then Preco(s[0]) else m
  }

  /** A sum of `n` prices, each at least `m`, is at least `n * m`. */
  lemma {:induction false} SomaAcimaDe(s: seq<Alojamento>, m: real)
    requires forall i :: 0 <= i < |s| ==> m <= Preco(s[i])
    ensures (|s| as real) * m <= SomaPrecos(s)
  {
    if |s| > 0 {
      SomaAcimaDe(s[1..], m);
      assert (|s| as real) * m == (|s[1..]| as real) * m + m;
    }
  }

  /** A sum of `n` prices, each at most `m`, is at most `n * m`. */
  lemma {:induction false} SomaAbaixoDe(s: seq<Alojamento>, m: real)
    requires forall i :: 0 <= i < |s| ==> Preco(s[i]) <= m
    ensures SomaPrecos(s) <= (|s| as real) * m
  {
    if |s| > 0 {
      SomaAbaixoDe(s[1..], m);
      assert (|s| as real) * m == (|s[1..]| as real) * m + m;
    }
  }

  /** The mean of prices that are all at least `m` is at least `m`. */
  lemma MediaAcimaDe(s: seq<Alojamento>, m: real)
    requires |s| > 0
    requires forall i :: 0 <= i < |s| ==> m <= Preco(s[i])
    ensures m <= SomaPrecos(s) / (|s| as real)
  {
    SomaAcimaDe(s, m);
    QuocienteAcima(m, SomaPrecos(s), |s| as real);
  }

  /** The mean of prices that are all at most `m` is at most `m`. */
  lemma MediaAbaixoDe(s: seq<Alojamento>, m: real)
    requires |s| > 0
    requires forall i :: 0 <= i < |s| ==> Preco(s[i]) <= m
    ensures SomaPrecos(s) / (|s| as real) <= m
  {
    SomaAbaixoDe(s, m);
    QuocienteAbaixo(m, SomaPrecos(s), |s| as real);
  }

  lemma QuocienteAcima(m: real, soma: real, n: real)
    requires n > 0.0 && n * m <= soma
    ensures m <= soma / n
  {
  }

  lemma QuocienteAbaixo(m: real, soma: real, n: real)
    requires n > 0.0 && soma <= n * m
    ensures soma / n <= m
  {
  }

  /** The mean price lies between the least and the greatest. */
  lemma MediaEntreExtremos(s: seq<Alojamento>)
    requires |s| > 0
    ensures MenorPreco(s) <= SomaPrecos(s) / (|s| as real) <= MaiorPreco(s)
  {
    MediaAcimaDe(s, MenorPreco(s));
    MediaAbaixoDe(s, MaiorPreco(s));
  }

  /** The prices of a list. */
  function Precos(s: seq<Alojamento>): (r: set<real>)
    ensures forall i :: 0 <= i < |s| ==> Preco(s[i]) in r
    ensures forall p :: p in r ==> exists i :: 0 <= i < |s| && Preco(s[i]) == p
  {
    set i | 0 <= i < |s| :: Preco(s[i])
  }

  /** `ObterEstatisticas()`'s dictionary, as a record. */
  datatype Estatisticas = Estatisticas(
    total: int, hoteis: int, apartamentos: int,
    precoMedio: real, precoMinimo: real, precoMaximo: real)

  /** The statistics of the hotels `hs` and the apartments `as_`: all zero
      when there are none; otherwise the counts, and the mean, least and
      greatest price over both lists. */
  function EstatisticasDe(hs: seq<Alojamento>, as_: seq<Alojamento>): (e: Estatisticas)
    ensures |hs + as_| == 0 ==> e == Estatisticas(0, 0, 0, 0.0, 0.0, 0.0)
    ensures |hs + as_| > 0 ==>
      e.total == |hs| + |as_| && e.hoteis == |hs| && e.apartamentos == |as_|
    ensures |hs + as_| > 0 ==> e.precoMinimo <= e.precoMedio <= e.precoMaximo
    ensures |hs + as_| > 0 ==> e.precoMedio == SomaPrecos(hs + as_) / ((|hs| + |as_|) as real)
    ensures |hs + as_| > 0 ==> forall i :: 0 <= i < |hs + as_| ==>
      e.precoMinimo <= Preco((hs + as_)[i]) <= e.precoMaximo
    ensures |hs + as_| > 0 ==> exists i :: 0 <= i < |hs + as_| && Preco((hs + as_)[i]) == e.precoMinimo
    ensures |hs + as_| > 0 ==> exists i :: 0 <= i < |hs + as_| && Preco((hs + as_)[i]) == e.precoMaximo
  {
    var todos := hs + as_;
    if |todos| == 0 then Estatisticas(0, 0, 0, 0.0, 0.0, 0.0)
    else
      var n := |todos| as real;
      MediaEntreExtremos(todos);
      Estatisticas(|todos|, |hs|, |as_|, SomaPrecos(todos) / n, MenorPreco(todos), MaiorPreco(todos))
  }

  /** `BuscarPorPreco`'s result over the hotels `hs` and the apartments
      `as_`: those priced within the bounds, cheapest first. */
  function PorPrecoNoIntervalo(hs: seq<Alojamento>, as_: seq<Alojamento>, min: real, max: real): (r: seq<Alojamento>)
    ensures forall i, j :: 0 <= i < j < |r| ==> Preco(r[i]) <= Preco(r[j])
    ensures multiset(r) == multiset(Filtrar(hs + as_, NoIntervaloDe(min, max)))
    ensures forall i :: 0 <= i < |r| ==> min <= Preco(r[i]) <= max
  {
    var p := NoIntervaloDe(min, max);
    FiltrarConcat(hs, as_, p);
    NaoMaisCaroPreOrdem();
    var achados := Filtrar(hs, p) + Filtrar(as_, p);
    var r := OrdenarPor(achados, Preco, NaoMaisCaro);
    EmIntervaloPermutacao(r, achados, min, max);
    r
  }

  /** `ObterOrdenadosPorPreco`'s order on a list: by price, cheapest first
      when `crescente`, dearest first otherwise. */
  function OrdenadosPorPreco(s: seq<Alojamento>, crescente: bool): (r: seq<Alojamento>)
    ensures multiset(r) == multiset(s)
    ensures crescente ==> forall i, j :: 0 <= i < j < |r| ==> Preco(r[i]) <= Preco(r[j])
    ensures !crescente ==> forall i, j :: 0 <= i < j < |r| ==> Preco(r[i]) >= Preco(r[j])
  {
    NaoMaisCaroPreOrdem();
    NaoMaisBaratoPreOrdem();
    if crescente then OrdenarPor(s, Preco, NaoMaisCaro)
    else OrdenarPor(s, Preco, NaoMaisBarato)
  }

  /** Both price sorts are stable: the accommodations with a given price
      come out in the order they had in the list. */
  lemma OrdenadosPorPrecoEstavel(s: seq<Alojamento>, crescente: bool, preco: real)
    ensures Filtrar(OrdenadosPorPreco(s, crescente), PrecoIgual(preco)) == Filtrar(s, PrecoIgual(preco))
  {
    NaoMaisCaroPreOrdem();
    NaoMaisBaratoPreOrdem();
    var le := if crescente then NaoMaisCaro else NaoMaisBarato;
    var mesma := MesmaChave(Preco, le, preco);
    var igual := PrecoIgual(preco);
    OrdenarPorEstavel(s, Preco, le, preco);
    var r := OrdenadosPorPreco(s, crescente);
    assert r == OrdenarPor(s, Preco, le);
    forall i | 0 <= i < |r| ensures mesma(r[i]) == igual(r[i]) {
    }
    forall i | 0 <= i < |s| ensures mesma(s[i]) == igual(s[i]) {
    }
    FiltrarMesmoPredicado(r, mesma, igual);
    FiltrarMesmoPredicado(s, mesma, igual);
  }

  /** The price search is the cheapest-first sort of the accommodations
      within the bounds, so it is stable: those with a given price come out
      in the order they have in the hotels followed by the apartments. */
  lemma PorPrecoNoIntervaloEstavel(hs: seq<Alojamento>, as_: seq<Alojamento>, min: real, max: real, preco: real)
    ensures PorPrecoNoIntervalo(hs, as_, min, max) == OrdenadosPorPreco(Filtrar(hs + as_, NoIntervaloDe(min, max)), true)
    ensures Filtrar(PorPrecoNoIntervalo(hs, as_, min, max), PrecoIgual(preco))
         == Filtrar(Filtrar(hs + as_, NoIntervaloDe(min, max)), PrecoIgual(preco))
  {
    FiltrarConcat(hs, as_, NoIntervaloDe(min, max));
    OrdenadosPorPrecoEstavel(Filtrar(hs + as_, NoIntervaloDe(min, max)), true, preco);
  }

  /** `ObterMaisCaros(quantidade)` is the first `quantidade` elements of
      the dearest-first order. */
  lemma MaisCarosPrefixo(s: seq<Alojamento>, quantidade: int)
    ensures MaisCaros(s, quantidade) == OrdenadosPorPreco(s, false)[..|MaisCaros(s, quantidade)|]
  {
    NaoMaisBaratoPreOrdem();
  }

  /** A permutation of accommodations within the bounds is within them. */
  lemma EmIntervaloPermutacao(r: seq<Alojamento>, s: seq<Alojamento>, min: real, max: real)
    requires multiset(r) == multiset(s)
    requires forall i :: 0 <= i < |s| ==> NoIntervalo(s[i], min, max)
    ensures forall i :: 0 <= i < |r| ==> min <= Preco(r[i]) <= max
  {
    forall i | 0 <= i < |r| ensures min <= Preco(r[i]) <= max {
      assert r[i] in multiset(s);
    }
  }

  // ---------------------------------------------------------------------
  // The service object

  class ServicoAlojamento {
    const repositorioHotel: RepositorioAlojamento
    const repositorioApartamento: RepositorioAlojamento

    /** Two distinct repositories, one of each kind, each consistent. */
    ghost predicate Valid()
      reads repositorioHotel`entidades, repositorioApartamento`entidades
    {
      && repositorioHotel != repositorioApartamento
      && repositorioHotel.tipo == TipoHotel && repositorioApartamento.tipo == TipoApartamento
      && repositorioHotel.Valid() && repositorioApartamento.Valid()
    }

    /** `new AlojamentoService()`: both repositories over their files in
        `pastaData`, each loaded when it can be; a load that throws leaves
        that repository empty. */
    constructor (pastaData: string, ficheiroHoteis: Ficheiro<Alojamento>, ficheiroApartamentos: Ficheiro<Alojamento>)
      ensures Valid() && fresh(repositorioHotel) && fresh(repositorioApartamento)
      ensures repositorioHotel.caminhoFicheiro == Combinar(pastaData, NomeFicheiro(TipoHotel))
      ensures repositorioApartamento.caminhoFicheiro == Combinar(pastaData, NomeFicheiro(TipoApartamento))
      ensures repositorioHotel.ficheiro == ficheiroHoteis && repositorioApartamento.ficheiro == ficheiroApartamentos
      ensures repositorioHotel.entidades ==
        CarregadoOuVazio(CarregarDe(TipoHotel, Combinar(pastaData, NomeFicheiro(TipoHotel)), ficheiroHoteis))
      ensures repositorioApartamento.entidades ==
        CarregadoOuVazio(CarregarDe(TipoApartamento, Combinar(pastaData, NomeFicheiro(TipoApartamento)), ficheiroApartamentos))
    {
      repositorioHotel := new RepositorioAlojamento(TipoHotel, Combinar(pastaData, NomeFicheiro(TipoHotel)), ficheiroHoteis);
      repositorioApartamento := new RepositorioAlojamento(TipoApartamento, Combinar(pastaData, NomeFicheiro(TipoApartamento)), ficheiroApartamentos);
      new;
      var ignorado := repositorioHotel.Carregar();
      ignorado := repositorioApartamento.Carregar();
    }

    /** `AdicionarHotel(endereco, v, preco, estrelas)`: a hotel with the
        next id, appended and saved. The constructor's exception and the
        save's exception reach the caller unwrapped; a failed save keeps
        the hotel in memory. The second argument is not used. */
    method AdicionarHotel(endereco: string, v: string, preco: real, estrelas: Int32) returns (r: Result<bool, Erro>)
      requires Valid()
      modifies repositorioHotel
      ensures Valid()
      ensures var h := NovoHotel(old(repositorioHotel.GerarProximoId()), endereco, preco, estrelas);
        && (h.Failure? ==> r == Failure(h.error) && unchanged(repositorioHotel))
        && (h.Success? ==> repositorioHotel.entidades == old(repositorioHotel.entidades) + [h.value])
        && (h.Success? ==> (r.Success? <==> old(repositorioHotel.ficheiro).gravavel))
      ensures r.Success? ==> (r.value && repositorioHotel.ficheiro ==
        Escrever(old(repositorioHotel.ficheiro), repositorioHotel.caminhoFicheiro, repositorioHotel.entidades).value)
      ensures r.Failure? ==> repositorioHotel.ficheiro == old(repositorioHotel.ficheiro)
      ensures old(IdsUnicos(repositorioHotel.entidades) && IdsAbaixoDoMaximo(repositorioHotel.entidades)) ==>
        IdsUnicos(repositorioHotel.entidades)
      ensures r.Failure? && old(NovoHotel(repositorioHotel.GerarProximoId(), endereco, preco, estrelas)).Success? ==>
        r.error == ErroGuardar(repositorioHotel.caminhoFicheiro)
    {
      var novoId := repositorioHotel.GerarProximoId();
      r := AdicionarEGuardar(repositorioHotel, NovoHotel(novoId, endereco, preco, estrelas));
    }

    /** `AdicionarApartamento(endereco, v, preco, quartos, garagem)`, as
        `AdicionarHotel` with the apartment repository. */
    method AdicionarApartamento(endereco: string, v: string, preco: real, quartos: Int32, garagem: bool)
      returns (r: Result<bool, Erro>)
      requires Valid()
      modifies repositorioApartamento
      ensures Valid()
      ensures var a := NovoApartamento(old(repositorioApartamento.GerarProximoId()), endereco, preco, quartos, garagem);
        && (a.Failure? ==> r == Failure(a.error) && unchanged(repositorioApartamento))
        && (a.Success? ==> repositorioApartamento.entidades == old(repositorioApartamento.entidades) + [a.value])
        && (a.Success? ==> (r.Success? <==> old(repositorioApartamento.ficheiro).gravavel))
      ensures r.Success? ==> (r.value && repositorioApartamento.ficheiro ==
        Escrever(old(repositorioApartamento.ficheiro), repositorioApartamento.caminhoFicheiro, repositorioApartamento.entidades).value)
      ensures r.Failure? ==> repositorioApartamento.ficheiro == old(repositorioApartamento.ficheiro)
      ensures old(IdsUnicos(repositorioApartamento.entidades) && IdsAbaixoDoMaximo(repositorioApartamento.entidades)) ==>
        IdsUnicos(repositorioApartamento.entidades)
      ensures r.Failure? && old(NovoApartamento(repositorioApartamento.GerarProximoId(), endereco, preco, quartos, garagem)).Success? ==>
        r.error == ErroGuardar(repositorioApartamento.caminhoFicheiro)
    {
      var novoId := repositorioApartamento.GerarProximoId();
      r := AdicionarEGuardar(repositorioApartamento, NovoApartamento(novoId, endereco, preco, quartos, garagem));
    }

    /** The shared tail of the two `Adicionar…` methods: a constructor's
        exception propagates; otherwise append, then save. */
    static method AdicionarEGuardar(repo: RepositorioAlojamento, novo: Result<Alojamento, Erro>)
      returns (r: Result<bool, Erro>)
      requires repo.Valid()
      requires novo.Success? ==> Valido(novo.value) && DoTipo(novo.value, repo.tipo)
      requires novo.Success? ==> novo.value.id == ProximoIdDe(repo.entidades)
      modifies repo
      ensures repo.Valid()
      ensures novo.Failure? ==> r == Failure(novo.error) && unchanged(repo)
      ensures novo.Success? ==> repo.entidades == old(repo.entidades) + [novo.value]
      ensures novo.Success? ==> (r.Success? <==> old(repo.ficheiro).gravavel)
      ensures r.Success? ==> r.value && repo.ficheiro == Escrever(old(repo.ficheiro), repo.caminhoFicheiro, repo.entidades).value
      ensures r.Failure? ==> repo.ficheiro == old(repo.ficheiro)
      ensures r.Failure? && novo.Success? ==> r.error == ErroGuardar(repo.caminhoFicheiro)
      ensures old(IdsUnicos(repo.entidades) && IdsAbaixoDoMaximo(repo.entidades)) ==> IdsUnicos(repo.entidades)
    {
      if novo.Failure? {
        return Failure(novo.error);
      }
      if IdsUnicos(repo.entidades) && IdsAbaixoDoMaximo(repo.entidades) {
        ProximoIdNovo(repo.entidades, repo.tipo, novo.value);
      }
      var adicionado := repo.Adicionar(Some(novo.value));
      r := repo.Guardar();
    }

    /** `ListarHoteis()`. */
    function ListarHoteis(): seq<Alojamento>
      reads repositorioHotel`entidades
    {
      repositorioHotel.ObterTodos()
    }

    /** `ListarApartamentos()`. */
    function ListarApartamentos(): seq<Alojamento>
      reads repositorioApartamento`entidades
    {
      repositorioApartamento.ObterTodos()
    }

    /** `ListarTodos()`: the hotels, then the apartments. */
    function ListarTodos(): (r: seq<Alojamento>)
      reads repositorioHotel`entidades, repositorioApartamento`entidades
      ensures |r| == repositorioHotel.Contar() + repositorioApartamento.Contar()
      ensures Valid() ==> forall i :: 0 <= i < |r| ==> (r[i].Hotel? <==> i < repositorioHotel.Contar())
    {
      ListarHoteis() + ListarApartamentos()
    }

    /** `ObterPorId(id)`: the first hotel with the id, else the first
        apartment with it, else not found — that is, the first element of
        `ListarTodos()` with the id. */
    function ObterPorId(id: int): (r: Result<Alojamento, Erro>)
      reads repositorioHotel`entidades, repositorioApartamento`entidades
      ensures r.Failure? <==> id !in Ids(ListarTodos())
      ensures r.Failure? ==> r.error == EntidadeNaoEncontrada("Alojamento", id)
      ensures r.Success? ==> r.value == ListarTodos()[IndiceDe(ListarTodos(), id).value]
    {
      var hs, as_ := ListarHoteis(), ListarApartamentos();
      IndiceDeConcat(hs, as_, id);
      assert ListarTodos() == hs + as_;
      match IndiceDe(hs, id)
      case Some(k) => Success(hs[k])
      case None =>
        match IndiceDe(as_, id)
        case Some(k) => Success(as_[k])
        case None => Failure(EntidadeNaoEncontrada("Alojamento", id))
    }

    /** `BuscarPorEndereco(endereco)`: the hotels and then the apartments
        whose address contains the text, ignoring case. Unlike the
        repositories' search, a blank text is not refused, and the empty
        text finds everything. */
    function BuscarPorEndereco(endereco: string): (r: seq<Alojamento>)
      reads repositorioHotel`entidades, repositorioApartamento`entidades
      ensures r == Filtrar(ListarTodos(), (a: Alojamento) => ContemSemCaso(a.endereco, endereco))
      ensures endereco == "" ==> r == ListarTodos()
    {
      var p := (a: Alojamento) => ContemSemCaso(a.endereco, endereco);
      FiltrarConcat(ListarHoteis(), ListarApartamentos(), p);
      BuscarVazioDevolveTodos(ListarTodos(), endereco);
      Filtrar(ListarHoteis(), p) + Filtrar(ListarApartamentos(), p)
    }

    /** `BuscarPorPreco(min, max)`: the accommodations priced within the
        bounds, cheapest first, ties in `ListarTodos()` order (the stable
        sort of `OrdenadosPorPrecoEstavel`). */
    function BuscarPorPreco(min: real, max: real): (r: seq<Alojamento>)
      reads repositorioHotel`entidades, repositorioApartamento`entidades
      ensures forall i, j :: 0 <= i < j < |r| ==> Preco(r[i]) <= Preco(r[j])
      ensures multiset(r) == multiset(Filtrar(ListarTodos(), NoIntervaloDe(min, max)))
      ensures forall i :: 0 <= i < |r| ==> min <= Preco(r[i]) <= max
      ensures r == OrdenadosPorPreco(Filtrar(ListarTodos(), NoIntervaloDe(min, max)), true)
    {
      PorPrecoNoIntervaloEstavel(ListarHoteis(), ListarApartamentos(), min, max, 0.0);
      PorPrecoNoIntervalo(ListarHoteis(), ListarApartamentos(), min, max)
    }

    /** `Remover(id)`: remove from the hotels when a hotel has the id, else
        from the apartments when one of them has it, and save that
        repository; not found otherwise. */
    method Remover(id: int) returns (r: Outcome<Erro>)
      requires Valid()
      modifies repositorioHotel, repositorioApartamento
      ensures Valid()
      ensures id !in old(Ids(ListarTodos())) ==>
        r == Fail(EntidadeNaoEncontrada("Alojamento", id)) && unchanged(repositorioHotel, repositorioApartamento)
      ensures id in old(Ids(ListarHoteis())) ==>
        && repositorioHotel.entidades == Retirar(old(repositorioHotel.entidades), TipoHotel, id).value
        && unchanged(repositorioApartamento)
        && (r.Pass? <==> old(repositorioHotel.ficheiro).gravavel)
        && (r.Pass? ==> repositorioHotel.ficheiro == Escrever(old(repositorioHotel.ficheiro), repositorioHotel.caminhoFicheiro, repositorioHotel.entidades).value)
        && (r.Fail? ==> r.error == ErroGuardar(repositorioHotel.caminhoFicheiro) && repositorioHotel.ficheiro == old(repositorioHotel.ficheiro))
      ensures id !in old(Ids(ListarHoteis())) && id in old(Ids(ListarApartamentos())) ==>
        && repositorioApartamento.entidades == Retirar(old(repositorioApartamento.entidades), TipoApartamento, id).value
        && unchanged(repositorioHotel)
        && (r.Pass? <==> old(repositorioApartamento.ficheiro).gravavel)
        && (r.Pass? ==> repositorioApartamento.ficheiro == Escrever(old(repositorioApartamento.ficheiro), repositorioApartamento.caminhoFicheiro, repositorioApartamento.entidades).value)
        && (r.Fail? ==> r.error == ErroGuardar(repositorioApartamento.caminhoFicheiro) && repositorioApartamento.ficheiro == old(repositorioApartamento.ficheiro))
    {
      assert Ids(ListarTodos()) == Ids(ListarHoteis()) + Ids(ListarApartamentos());
      if IndiceDe(repositorioHotel.entidades, id).Some? {
        r := RemoverEGuardar(repositorioHotel, id);
      } else if IndiceDe(repositorioApartamento.entidades, id).Some? {
        r := RemoverEGuardar(repositorioApartamento, id);
      } else {
        r := Fail(EntidadeNaoEncontrada("Alojamento", id));
      }
    }

    /** Remove a present id from one repository and save it. */
    static method RemoverEGuardar(repo: RepositorioAlojamento, id: int) returns (r: Outcome<Erro>)
      requires repo.Valid() && id in Ids(repo.entidades)
      modifies repo
      ensures repo.Valid()
      ensures repo.entidades == Retirar(old(repo.entidades), repo.tipo, id).value
      ensures r.Pass? <==> old(repo.ficheiro).gravavel
      ensures r.Fail? ==> r.error == ErroGuardar(repo.caminhoFicheiro)
      ensures r.Pass? ==> repo.ficheiro == Escrever(old(repo.ficheiro), repo.caminhoFicheiro, repo.entidades).value
      ensures r.Fail? ==> repo.ficheiro == old(repo.ficheiro)
    {
      var removido := repo.Remover(id);
      var guardado := repo.Guardar();
      r := if guardado.Success? then Pass else Fail(guardado.error);
    }

    /** `ObterEstatisticas()`. */
    function ObterEstatisticas(): (e: Estatisticas)
      reads repositorioHotel`entidades, repositorioApartamento`entidades
      ensures |ListarTodos()| == 0 ==> e == Estatisticas(0, 0, 0, 0.0, 0.0, 0.0)
      ensures |ListarTodos()| > 0 ==> e.total == e.hoteis + e.apartamentos == ContarTotal()
      ensures e.hoteis == repositorioHotel.Contar() && e.apartamentos == repositorioApartamento.Contar()
      ensures |ListarTodos()| > 0 ==> e.precoMinimo <= e.precoMedio <= e.precoMaximo
      ensures |ListarTodos()| > 0 ==> e.precoMedio == SomaPrecos(ListarTodos()) / (|ListarTodos()| as real)
      ensures forall a :: a in ListarTodos() ==> e.precoMinimo <= Preco(a) <= e.precoMaximo
      ensures |ListarTodos()| > 0 ==> e.precoMinimo in Precos(ListarTodos()) && e.precoMaximo in Precos(ListarTodos())
    {
      assert ListarTodos() == ListarHoteis() + ListarApartamentos();
      EstatisticasDe(ListarHoteis(), ListarApartamentos())
    }

    /** `ObterMaisCaros(quantidade)` (5 by default): the dearest across
        both lists. */
    function ObterMaisCaros(quantidade: int): (r: seq<Alojamento>)
      reads repositorioHotel`entidades, repositorioApartamento`entidades
      ensures |r| == if quantidade <= 0 then 0 else if quantidade < ContarTotal() then quantidade else ContarTotal()
      ensures r == ObterOrdenadosPorPreco(false)[..|r|]
      ensures forall x, y :: x in r && y in multiset(ListarTodos()) - multiset(r) ==> Preco(x) >= Preco(y)
    {
      MaisCarosSaoOsMaisCaros(ListarTodos(), quantidade);
      MaisCarosPrefixo(ListarTodos(), quantidade);
      MaisCaros(ListarTodos(), quantidade)
    }

    /** `ObterOrdenadosPorPreco(crescente)` (ascending by default): every
        accommodation, sorted by price, ties in `ListarTodos()` order. */
    function ObterOrdenadosPorPreco(crescente: bool): (r: seq<Alojamento>)
      reads repositorioHotel`entidades, repositorioApartamento`entidades
      ensures multiset(r) == multiset(ListarTodos())
      ensures crescente ==> forall i, j :: 0 <= i < j < |r| ==> Preco(r[i]) <= Preco(r[j])
      ensures !crescente ==> forall i, j :: 0 <= i < j < |r| ==> Preco(r[i]) >= Preco(r[j])
    {
      OrdenadosPorPreco(ListarTodos(), crescente)
    }

    /** `ContarTotal()`. */
    function ContarTotal(): (n: nat)
      reads repositorioHotel`entidades, repositorioApartamento`entidades
      ensures n == repositorioHotel.Contar() + repositorioApartamento.Contar()
    {
      |ListarTodos()|
    }
  }
}
