/** The JSON file behind a repository (Data/RepositorioBase.cs, `Guardar`
    and `Carregar`). The text itself is not modelled: a file holds what the
    deserializer would make of it, as a list of records of the entity's
    public properties. */
module Ficheiros {
  import opened Wrappers
  import opened Erros

  /** What the deserializer makes of the file's text. */
  datatype Conteudo<D> =
      /** Empty or white-space text. */
    | SemTexto
      /** The JSON literal `null`. */
    | Nulo
      /** A JSON array of objects, one record per entity, in order. */
    | Registos(registos: seq<D>)
      /** Text the deserializer rejects. */
    | Malformado

  /** The file at the repository's path: whether it exists, whether the
      process may read and write it, and what it holds. */
  datatype Ficheiro<D> = Ficheiro(existe: bool, legivel: bool, gravavel: bool, conteudo: Conteudo<D>)

  /** `Path.Combine(pasta, nome)`: the file `nome` inside the folder. */
  function Combinar(pasta: string, nome: string): string
  {
    pasta + "/" + nome
  }

  /** The exception `Guardar` throws around a failed write. */
  function ErroGuardar(caminho: string): (e: Erro)
    ensures e.Persistencia? && e.causa.Some?
  {
    Persistencia("Erro ao guardar dados em " + caminho, Some(ExcecaoSistema("IOException")))
  }

  /** The exception `Carregar` throws around whatever failed while loading. */
  function ErroCarregar(caminho: string, causa: Erro): (e: Erro)
    ensures e.Persistencia? && Causa(e) == Some(causa)
  {
    Persistencia("Erro ao carregar dados de " + caminho, Some(causa))
  }

  /** `File.WriteAllText` of the serialized records: the file then exists
      and holds exactly those records; a file that cannot be written is
      left as it was and the write throws. */
  function Escrever<D>(f: Ficheiro<D>, caminho: string, registos: seq<D>): (r: Result<Ficheiro<D>, Erro>)
    ensures r.Success? <==> f.gravavel
    ensures r.Success? ==> r.value == f.(existe := true, conteudo := Registos(registos))
    ensures r.Failure? ==> r.error == ErroGuardar(caminho)
  {
    if f.gravavel then Success(f.(existe := true, conteudo := Registos(registos)))
    else Failure(ErroGuardar(caminho))
  }

  /** The reading half of `Carregar`: `None` when there is nothing to load
      (no file, or blank text), the records otherwise (none for `null`); an
      unreadable or malformed file throws. */
  function Ler<D>(f: Ficheiro<D>, caminho: string): (r: Result<Option<seq<D>>, Erro>)
    ensures r == Success(None) <==> !f.existe || (f.legivel && f.conteudo.SemTexto?)
    ensures r.Success? && r.value.Some? && f.conteudo.Registos? ==> r.value.value == f.conteudo.registos
    ensures f.existe && f.conteudo.Nulo? && f.legivel ==> r == Success(Some([]))
    ensures r.Failure? ==> r.error.Persistencia? && r.error.causa.Some?
  {
    if !f.existe then Success(None)
    else if !f.legivel then Failure(ErroCarregar(caminho, ExcecaoSistema("IOException")))
    else match f.conteudo
      case SemTexto => Success(None)
      case Nulo => Success(Some([]))
      case Registos(rs) => Success(Some(rs))
      case Malformado => Failure(ErroCarregar(caminho, ExcecaoSistema("JsonException")))
  }

  /** What a successful write leaves is read back as the same records. */
  lemma LerAposEscrever<D>(f: Ficheiro<D>, caminho: string, registos: seq<D>)
    requires f.gravavel && f.legivel
    ensures Escrever(f, caminho, registos).Success?
    ensures Ler(Escrever(f, caminho, registos).value, caminho) == Success(Some(registos))
  {
  }
}
