/** Accommodations (Models/Alojamento.cs, Hotel.cs, Apartamento.cs): an
    abstract base with an id, an address and a nightly price, and its two
    kinds. Their setters are private and only the constructors run them, so
    an accommodation is a value: a constructor either builds one whose fields
    are its arguments, or throws for the first field that fails validation. */
module Alojamentos {
  import opened Wrappers
  import opened Sequencias
  import opened Texto
  import opened Erros

  datatype Alojamento =
    | Hotel(id: Int32, endereco: string, precoPorNoite: real, numeroEstrelas: Int32)
    | Apartamento(id: Int32, endereco: string, precoPorNoite: real,
                  numeroQuartos: Int32, temGaragem: bool)

  const MSG_ID := "O ID deve ser maior que zero."
  const MSG_ENDERECO := "O endereço não pode estar vazio."
  const MSG_PRECO := "O preço não pode ser negativo."
  const MSG_ESTRELAS := "O número de estrelas deve estar entre 1 e 5."
  const MSG_QUARTOS := "Deve ter pelo menos 1 quarto."

  // ---------------------------------------------------------------------
  // What each property setter accepts

  predicate IdValido(id: int) { id > 0 }
  predicate EnderecoValido(endereco: string) { !EmBranco(endereco) }
  predicate PrecoValido(preco: real) { preco >= 0.0 }
  predicate EstrelasValidas(estrelas: int) { 1 <= estrelas <= 5 }
  predicate QuartosValidos(quartos: int) { quartos >= 1 }

  /** The invariant every constructed accommodation satisfies. */
  predicate Valido(a: Alojamento)
  {
    && IdValido(a.id) && EnderecoValido(a.endereco) && PrecoValido(a.precoPorNoite)
    && (if a.Hotel? then EstrelasValidas(a.numeroEstrelas) else QuartosValidos(a.numeroQuartos))
  }

  /** The base constructor: the setters of Id, Endereco and PrecoPorNoite,
      in that order; the first to refuse its value throws. */
  function ValidarBase(id: Int32, endereco: string, preco: real): (r: Outcome<Erro>)
    ensures r.Pass? <==> IdValido(id) && EnderecoValido(endereco) && PrecoValido(preco)
    ensures r.Fail? ==> r.error.DadosInvalidos?
    ensures r.Fail? ==> (r.error.campo == "Id" <==> !IdValido(id))
    ensures r.Fail? ==> (r.error.campo == "Endereco" <==> IdValido(id) && !EnderecoValido(endereco))
    ensures r.Fail? ==> (r.error.campo == "PrecoPorNoite" <==>
                         IdValido(id) && EnderecoValido(endereco) && !PrecoValido(preco))
  {
    if !IdValido(id) then Fail(DadosInvalidos("Id", MSG_ID))
    else if !EnderecoValido(endereco) then Fail(DadosInvalidos("Endereco", MSG_ENDERECO))
    else if !PrecoValido(preco) then Fail(DadosInvalidos("PrecoPorNoite", MSG_PRECO))
    else Pass
  }

  /** `new Hotel(id, endereco, preco, estrelas)`: the base checks, then the
      star count; on success the fields are the arguments, unchanged. */
  function NovoHotel(id: Int32, endereco: string, preco: real, estrelas: Int32): (r: Result<Alojamento, Erro>)
    ensures r.Success? <==>
      IdValido(id) && EnderecoValido(endereco) && PrecoValido(preco) && EstrelasValidas(estrelas)
    ensures r.Success? ==> r.value == Hotel(id, endereco, preco, estrelas) && Valido(r.value)
    ensures r.Failure? ==> r.error.DadosInvalidos?
    ensures r.Failure? ==> (r.error.campo == "NumeroEstrelas" <==>
      IdValido(id) && EnderecoValido(endereco) && PrecoValido(preco))
    ensures r.Failure? && !IdValido(id) ==> r.error.campo == "Id"
    ensures r.Failure? && IdValido(id) && !EnderecoValido(endereco) ==> r.error.campo == "Endereco"
    ensures r.Failure? && IdValido(id) && EnderecoValido(endereco) && !PrecoValido(preco) ==>
      r.error.campo == "PrecoPorNoite"
  {
    match ValidarBase(id, endereco, preco)
    case Fail(e) => Failure(e)
    case Pass =>
      if !EstrelasValidas(estrelas) then Failure(DadosInvalidos("NumeroEstrelas", MSG_ESTRELAS))
      else Success(Hotel(id, endereco, preco, estrelas))
  }

  /** `new Apartamento(id, endereco, preco, quartos, garagem)`: the base
      checks, then the room count; the garage flag is never refused. */
  function NovoApartamento(id: Int32, endereco: string, preco: real, quartos: Int32, garagem: bool)
    : (r: Result<Alojamento, Erro>)
    ensures r.Success? <==>
      IdValido(id) && EnderecoValido(endereco) && PrecoValido(preco) && QuartosValidos(quartos)
    ensures r.Success? ==> r.value == Apartamento(id, endereco, preco, quartos, garagem) && Valido(r.value)
    ensures r.Failure? ==> r.error.DadosInvalidos?
    ensures r.Failure? ==> (r.error.campo == "NumeroQuartos" <==>
      IdValido(id) && EnderecoValido(endereco) && PrecoValido(preco))
    ensures r.Failure? && !IdValido(id) ==> r.error.campo == "Id"
    ensures r.Failure? && IdValido(id) && !EnderecoValido(endereco) ==> r.error.campo == "Endereco"
    ensures r.Failure? && IdValido(id) && EnderecoValido(endereco) && !PrecoValido(preco) ==>
      r.error.campo == "PrecoPorNoite"
  {
    match ValidarBase(id, endereco, preco)
    case Fail(e) => Failure(e)
    case Pass =>
      if !QuartosValidos(quartos) then Failure(DadosInvalidos("NumeroQuartos", MSG_QUARTOS))
      else Success(Apartamento(id, endereco, preco, quartos, garagem))
  }

  /** Build an accommodation again from its own fields, with the constructor
      of its kind. */
  function Reconstruir(a: Alojamento): Result<Alojamento, Erro>
  {
    match a
    case Hotel(id, e, p, n) => NovoHotel(id, e, p, n)
    case Apartamento(id, e, p, q, g) => NovoApartamento(id, e, p, q, g)
  }

  /** The constructors accept exactly the valid accommodations, and give
      them back unchanged. */
  lemma ReconstruirValido(a: Alojamento)
    ensures Reconstruir(a) == Success(a) <==> Valido(a)
    ensures !Valido(a) ==> Reconstruir(a).Failure?
  {
  }

  // ---------------------------------------------------------------------
  // Behaviour

  /** `CalcularTaxaServico()`: 10% of the nightly price, overridden by
      apartments to add 5.0 when there is a garage. */
  function CalcularTaxaServico(a: Alojamento): (r: real)
    ensures PrecoValido(a.precoPorNoite) ==> r >= 0.0
    ensures a.precoPorNoite * 0.10 <= r <= a.precoPorNoite * 0.10 + 5.0
    ensures r == a.precoPorNoite * 0.10 <==> !(a.Apartamento? && a.temGaragem)
  {
    var taxaBase := a.precoPorNoite * 0.10;
    if a.Apartamento? && a.temGaragem then taxaBase + 5.0 else taxaBase
  }

  /** Of two apartments that differ at most in id, address and garage, the
      one with a garage pays exactly 5.0 more in service fee. */
  lemma GaragemCustaCinco(semGaragem: Alojamento, comGaragem: Alojamento)
    requires semGaragem.Apartamento? && comGaragem.Apartamento?
    requires !semGaragem.temGaragem && comGaragem.temGaragem
    requires semGaragem.precoPorNoite == comGaragem.precoPorNoite
    ensures CalcularTaxaServico(comGaragem) - CalcularTaxaServico(semGaragem) == 5.0
  {
  }

  /** `ClassificarHotel()`: a name per star count, "Standard" below three. */
  function ClassificarHotel(estrelas: int): (r: string)
    ensures r == "Luxo" <==> estrelas == 5
    ensures r == "Superior" <==> estrelas == 4
    ensures r == "Conforto" <==> estrelas == 3
    ensures r == "Standard" <==> estrelas != 3 && estrelas != 4 && estrelas != 5
  {
    if estrelas == 5 then "Luxo"
    else if estrelas == 4 then "Superior"
    else if estrelas == 3 then "Conforto"
    else "Standard"
  }

  /** `ToString()` of the base class; prices are written by `formatar`, which
      stands for the two-decimal format of the current culture. */
  function TextoBase(a: Alojamento, formatar: real -> string): string
  {
    "[" + IntParaTexto(a.id) + "] " + a.endereco + " - €" + formatar(a.precoPorNoite) + "/noite"
  }

  /** The kind label each override puts in front: "Hotel n★" or "Apartamento Tn". */
  function Rotulo(a: Alojamento): (r: string)
    ensures a.Hotel? ==> "Hotel " <= r
    ensures a.Apartamento? ==> "Apartamento T" <= r
  {
    if a.Hotel? then "Hotel " + IntParaTexto(a.numeroEstrelas) + "★"
    else "Apartamento T" + IntParaTexto(a.numeroQuartos)
  }

  /** The overridden `ToString()`: the kind label, then the base text. */
  function ParaTexto(a: Alojamento, formatar: real -> string): string
  {
    Rotulo(a) + " - " + TextoBase(a, formatar)
  }

  /** `ObterDetalhes()`: four lines; the third is the classification of a
      hotel or whether an apartment has a garage. */
  function ObterDetalhes(a: Alojamento, formatar: real -> string): string
  {
    var terceira :=
      if a.Hotel? then "Classificação: " + ClassificarHotel(a.numeroEstrelas)
      else "Garagem: " + (if a.temGaragem then "Sim" else "Não");
    Rotulo(a) + " - " + a.endereco + "\n"
      + "Preço: €" + formatar(a.precoPorNoite) + "/noite\n"
      + terceira + "\n"
      + "Taxa de Serviço: €" + formatar(CalcularTaxaServico(a))
  }

  /** The short text starts with the kind and shows the id and the address. */
  lemma ParaTextoIdentifica(a: Alojamento, formatar: real -> string)
    ensures Rotulo(a) <= ParaTexto(a, formatar)
    ensures Contem(ParaTexto(a, formatar), a.endereco)
    ensures Contem(ParaTexto(a, formatar), IntParaTexto(a.id))
  {
    var id, e, p := IntParaTexto(a.id), a.endereco, formatar(a.precoPorNoite);
    ContemMeio("[", id, "");
    assert "[" + id + "" == "[" + id;
    ContemAntes("[" + id, "] ", id);
    ContemAntes("[" + id + "] ", e, id);
    ContemMeio("[" + id + "] ", e, "");
    assert "[" + id + "] " + e + "" == "[" + id + "] " + e;
    var m := "[" + id + "] " + e;
    ContemAntes(m, " - €", id);
    ContemAntes(m, " - €", e);
    ContemAntes(m + " - €", p, id);
    ContemAntes(m + " - €", p, e);
    ContemAntes(m + " - €" + p, "/noite", id);
    ContemAntes(m + " - €" + p, "/noite", e);
    ContemDepois(Rotulo(a) + " - ", TextoBase(a, formatar), id);
    ContemDepois(Rotulo(a) + " - ", TextoBase(a, formatar), e);
  }

  /** The details show the address and, for a hotel,
      its classification. */
  lemma DetalhesIdentificam(a: Alojamento, formatar: real -> string)
    ensures Contem(ObterDetalhes(a, formatar), a.endereco)
    ensures a.Hotel? ==> Contem(ObterDetalhes(a, formatar), ClassificarHotel(a.numeroEstrelas))
  {
    var terceira :=
      if a.Hotel? then "Classificação: " + ClassificarHotel(a.numeroEstrelas)
      else "Garagem: " + (if a.temGaragem then "Sim" else "Não");
    var e := a.endereco;
    var linha1 := Rotulo(a) + " - " + e;
    ContemMeio(Rotulo(a) + " - ", e, "");
    assert Rotulo(a) + " - " + e + "" == linha1;
    var ate2 := linha1 + "\n" + "Preço: €" + formatar(a.precoPorNoite) + "/noite\n";
    ContemAntes(linha1, "\n", e);
    ContemAntes(linha1 + "\n", "Preço: €", e);
    ContemAntes(linha1 + "\n" + "Preço: €", formatar(a.precoPorNoite), e);
    ContemAntes(linha1 + "\n" + "Preço: €" + formatar(a.precoPorNoite), "/noite\n", e);
    ContemAntes(ate2, terceira, e);
    ContemAntes(ate2 + terceira, "\n", e);
    ContemAntes(ate2 + terceira + "\n", "Taxa de Serviço: €", e);
    ContemAntes(ate2 + terceira + "\n" + "Taxa de Serviço: €", formatar(CalcularTaxaServico(a)), e);
    if a.Hotel? {
      var c := ClassificarHotel(a.numeroEstrelas);
      ContemMeio("Classificação: ", c, "");
      assert "Classificação: " + c + "" == terceira;
      ContemDepois(ate2, terceira, c);
      ContemAntes(ate2 + terceira, "\n", c);
      ContemAntes(ate2 + terceira + "\n", "Taxa de Serviço: €", c);
      ContemAntes(ate2 + terceira + "\n" + "Taxa de Serviço: €", formatar(CalcularTaxaServico(a)), c);
    }
  }
}
