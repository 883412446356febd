/** The exception classes of the system (Exceptions/Exceptions.cs) as one
    datatype: a member that throws returns `Failure(e)` with one of these. */
module Erros {
  import opened Wrappers
  import opened Sequencias
  import opened Texto

  /** `AlojamentoException` and its three subclasses, plus the runtime's
      own exceptions (an I/O or JSON failure), which only ever appear as the
      cause carried by one of the others. */
  datatype Erro =
      /** `DadosInvalidosException(campo, mensagem)`: a field failed validation. */
    | DadosInvalidos(campo: string, detalhe: string)
      /** `EntidadeNaoEncontradaException(tipo, id)`. */
    | EntidadeNaoEncontrada(tipo: string, id: int)
      /** `PersistenciaException`, with or without an inner exception. */
    | Persistencia(detalhe: string, causa: Option<Erro>)
      /** A plain `AlojamentoException`, with or without an inner exception. */
    | Geral(detalhe: string, causa: Option<Erro>)
      /** An exception of the .NET runtime, named by its type. */
    | ExcecaoSistema(nome: string)

  /** The three specific kinds and the plain one are all `AlojamentoException`s;
      only the runtime's exceptions are not. */
  predicate EAlojamentoException(e: Erro)
  {
    !e.ExcecaoSistema?
  }

  /** `Exception.InnerException`. */
  function Causa(e: Erro): Option<Erro>
  {
    match e
    case Persistencia(_, c) => c
    case Geral(_, c) => c
    case _ => None
  }

  /** `Exception.Message`, as each constructor builds it. */
  function Mensagem(e: Erro): string
  {
    match e
    case DadosInvalidos(campo, detalhe) =>
      "Dados inválidos no campo '" + campo + "': " + detalhe
    case EntidadeNaoEncontrada(tipo, id) =>
      tipo + " com ID " + IntParaTexto(id) + " não foi encontrado."
    case Persistencia(detalhe, causa) =>
      if causa.Some? then "Erro de persistência: " + detalhe else detalhe
    case Geral(detalhe, _) => detalhe
    case ExcecaoSistema(nome) => nome
  }

  /** The error every repository raises for a null entity. */
  function EntidadeNula(): (e: Erro)
    ensures e.DadosInvalidos? && e.campo == "entidade"
  {
    DadosInvalidos("entidade", "A entidade não pode ser nula.")
  }

  /** `throw new AlojamentoException(detalhe, ex)` around a caught `ex`. */
  function Embrulhar(detalhe: string, e: Erro): (r: Erro)
    ensures EAlojamentoException(r) && Causa(r) == Some(e) && Mensagem(r) == detalhe
    ensures r.Geral?
  {
    Geral(detalhe, Some(e))
  }

  /** The lower-cased message of a validation error contains the lower-cased
      field name, which is what callers that search the message rely on. */
  lemma MensagemNomeiaCampo(campo: string, detalhe: string)
    ensures Contem(ParaMinusculas(Mensagem(DadosInvalidos(campo, detalhe))), ParaMinusculas(campo))
  {
    var a := "Dados inválidos no campo '";
    var c := "': " + detalhe;
    assert Mensagem(DadosInvalidos(campo, detalhe)) == a + campo + c;
    ParaMinusculasConcat(a + campo, c);
    ParaMinusculasConcat(a, campo);
    ContemMeio(ParaMinusculas(a), ParaMinusculas(campo), ParaMinusculas(c));
  }

  /** A not-found message names the kind first and then the id in decimal,
      a minus sign included for a negative id, from which the id can be
      read back. */
  lemma MensagemNomeiaId(tipo: string, id: int)
    ensures var m := Mensagem(EntidadeNaoEncontrada(tipo, id));
      && tipo <= m
      && m[|tipo| + 8..|tipo| + 8 + |IntParaTexto(id)|] == IntParaTexto(id)
      && TextoInteiro(m[|tipo| + 8..|tipo| + 8 + |IntParaTexto(id)|])
      && LerInteiro(m[|tipo| + 8..|tipo| + 8 + |IntParaTexto(id)|]) == id
  {
    var m := Mensagem(EntidadeNaoEncontrada(tipo, id));
    assert m == tipo + " com ID " + IntParaTexto(id) + " não foi encontrado.";
    assert m[|tipo| + 8..|tipo| + 8 + |IntParaTexto(id)|] == IntParaTexto(id);
    LerIntParaTexto(id);
  }

  /** A persistence error raised around a cause says so in its message and
      keeps the cause. */
  lemma PersistenciaComCausa(detalhe: string, causa: Erro)
    ensures var e := Persistencia(detalhe, Some(causa));
      && "Erro de persistência: " <= Mensagem(e)
      && Contem(Mensagem(e), detalhe)
      && Causa(e) == Some(causa)
      && EAlojamentoException(e)
  {
    ContemMeio("Erro de persistência: ", detalhe, "");
    assert "Erro de persistência: " + detalhe + "" == Mensagem(Persistencia(detalhe, Some(causa)));
  }
}
