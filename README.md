# Tourist lodging management — a Dafny model of the domain, data and business layers

The C# application `POO_GestaoAlojamentosTuristicos` manages accommodations
(hotels and apartments) and clients. This project models its core in Dafny:

- the validated entities `Alojamento`, `Hotel`, `Apartamento` and `Cliente`;
- the exception hierarchy;
- the JSON-backed repositories;
- the two services that compose them.

It then proves what those classes promise.

- `wrappers.dfy` (module `Wrappers`): `Option`, `Result`, `Outcome`; the C# `int` as `Int32`, with its wrap-around
- `sequencias.dfy` (module `Sequencias`): LINQ over lists: `Where`, `FirstOrDefault`/`FindIndex`, `Max`, `Take`, `Contains`, stable `OrderBy`
- `texto.dfy` (module `Texto`): `IsNullOrWhiteSpace`, `char.IsDigit`, `OrdinalIgnoreCase` comparison and search, `int.ToString`, UTF-16 length and ordinal string order
- `erros.dfy` (module `Erros`): `Exceptions/Exceptions.cs` as the datatype `Erro`, with messages and inner causes
- `alojamentos.dfy` (module `Alojamentos`): `Models/Alojamento.cs`, `Models/Hotel.cs` and `Models/Apartamento.cs`, as one datatype with a validating constructor per kind
- `clientes.dfy` (module `Clientes`): `Models/Cliente.cs`, as a class whose validating setters update its fields in place
- `ficheiros.dfy` (module `Ficheiros`): the JSON file behind a repository, as an abstract snapshot
- `repositorio_alojamento.dfy` (module `RepositorioAlojamentos`): `Data/RepositorioBase.cs`, `Data/RepositorioHotel.cs`, `Data/RepositorioApartamento.cs`
- `repositorio_cliente.dfy` (module `RepositorioClientes`): `Data/RepositorioBase.cs`, `Data/RepositorioCliente.cs`
- `alojamento_service.dfy` (module `ServicoAlojamentos`): `Business/AlojamentoService.cs`
- `cliente_service.dfy` (module `ServicoClientes`): `Business/ClienteService.cs`

How each part is modelled:

- **Accommodations.** Their fields are set only by their constructors. They are therefore values:
  - the `Alojamento` datatype (`Hotel | Apartamento`);
  - a validity predicate;
  - constructor functions that return `Result` and check the fields in the source's order.
- **Clients.** A `Cliente` is changed in place after construction: `ClienteService.Atualizar` runs its setters on the stored object. So it is a class with one method per setter.
- **Repositories.** Each repository is a class whose `entidades` field is a sequence. The methods reassign that field.
- **Services.** Each service is a class holding its repositories.
- **Thrown exceptions.** A method that throws returns `Failure(e)` (or `Fail(e)`) instead, with `e` an `Erro`.
- **Backing file.** A `Ficheiro` says:
  - whether the file exists;
  - whether it can be read and written;
  - what the JSON deserializer would make of its text: blank, `null`, a list of records, or malformed.

Each state-changing method is specified against a function on values, and lemmas prove the properties of those functions:

- `Acrescentar`, `Substituir` and `Retirar` for the accommodation repositories;
- `RemoverEm` and `AlterarEm` for the client side;
- `Escrever`/`Ler` and `CarregarDe` for the file.

The proved properties include:

- which field the validation reports;
- the service fee;
- the invariant of a normalised phone number;
- that an e-mail is unique, ignoring case;
- that a generated id is new;
- that a removal undoes an addition;
- that saving and then loading gives back the saved list;
- that the searches are complete;
- that the sorts are stable;
- that top-N and the statistics are correct;
- how the client service wraps its errors.

Behaviours of the source that the model keeps as they are:

- `AdicionarHotel` and `AdicionarApartamento` store their FIRST string argument as the address. They ignore the second argument `v` (`Business/AlojamentoService.cs:30-48`).
- `ClienteService.Atualizar` is not atomic (`Business/ClienteService.cs:67-71`):
  - the setters run one after another on the stored client;
  - a setter that throws leaves the earlier changes in memory;
  - those changes are not saved.
- A hotel and an apartment may share an id. The service's lookup and removal then reach the hotel (`Business/AlojamentoService.cs:70-79,101-120`).
- The client name is checked for length without trimming (`Models/Cliente.cs:33-36`).
- When `Guardar` throws after a change, the in-memory change stays. Only the file is left as it was.
- `GerarProximoId` is the largest id plus one. So after the entity holding the largest id is removed, its id is handed out again.
- `GerarProximoId` uses unchecked `int` arithmetic: at `int.MaxValue` it yields `int.MinValue`. The `Id` setter then rejects that value (`Wrappers.Envolver32`, `Sequencias.ProximoId`).
- The service's `BuscarPorEndereco` does not short-circuit a blank query. The empty text matches every address, so `""` returns everything (`Business/AlojamentoService.cs:81-87`). The repositories' `BuscarPorEndereco` returns nothing for blank text.
- `ClienteService.Atualizar` checks `ObterPorId`'s result for `null` (`Business/ClienteService.cs:64-65`). That check is dead code, because `RepositorioCliente.ObterPorId` throws instead of returning `null`.
- The service tests expect `ClienteService.Adicionar` with a duplicate e-mail to throw the bare validation exception (`ServiceTests.cs:171-183`). The code wraps it in an `AlojamentoException` (`Business/ClienteService.cs:47-50`). The model follows the code.

## Model

Source paths are relative to the repository root.

| member | source | states |
|---|---|---|
| `Wrappers.Envolver32` | POO_GestaoAlojamentosTuristicos/POO_GestaoAlojamentosTuristicos/Data/RepositorioHotel.cs:45-48 | C# unchecked `int` addition: values in range are kept; `int.MaxValue + 1` becomes `int.MinValue` |
| `Sequencias.Filtrar` | POO_GestaoAlojamentosTuristicos/POO_GestaoAlojamentosTuristicos/Data/RepositorioHotel.cs:55-57 | `Where`: every kept element comes from the input and satisfies the predicate, every input element satisfying it is kept, and the result is never longer |
| `Sequencias.FiltrarPosicoes` | POO_GestaoAlojamentosTuristicos/POO_GestaoAlojamentosTuristicos/Data/RepositorioHotel.cs:55-57 | `Where` keeps order and multiplicity: the result is, element by element, the input at the increasing list of positions whose element satisfies the predicate |
| `Sequencias.PosicoesQue` | POO_GestaoAlojamentosTuristicos/POO_GestaoAlojamentosTuristicos/Data/RepositorioHotel.cs:55-57 | the positions whose element satisfies the predicate: strictly increasing, each valid and satisfying, none missed |
| `Sequencias.FiltrarConcat` | POO_GestaoAlojamentosTuristicos/POO_GestaoAlojamentosTuristicos/Business/AlojamentoService.cs:83-86 | filtering two lists one after the other is filtering their concatenation (hotel matches, then apartment matches) |
| `Sequencias.PrimeiroIndice` | POO_GestaoAlojamentosTuristicos/POO_GestaoAlojamentosTuristicos/Data/RepositorioHotel.cs:28 | `FindIndex`: none iff no element matches; otherwise a matching index with no match before it |
| `Sequencias.RemoverEm` | POO_GestaoAlojamentosTuristicos/POO_GestaoAlojamentosTuristicos/Data/RepositorioHotel.cs:42 | `List.Remove` of the element at one position: one shorter, the elements before unchanged, those after shifted down by one, the multiset less exactly that element |
| `Sequencias.Maximo` | POO_GestaoAlojamentosTuristicos/POO_GestaoAlojamentosTuristicos/Data/RepositorioHotel.cs:47 | `Max` of a non-empty list is one of its elements and no element exceeds it |
| `Sequencias.ProximoId` | POO_GestaoAlojamentosTuristicos/POO_GestaoAlojamentosTuristicos/Data/RepositorioCliente.cs:103-106 | 1 on an empty list; while no id is `int.MaxValue`, greater than every id and equal to the largest plus one; wraps to `int.MinValue` otherwise |
| `Sequencias.Tomar` | POO_GestaoAlojamentosTuristicos/POO_GestaoAlojamentosTuristicos/Data/RepositorioHotel.cs:62 | `Take(n)`: the prefix of length `min(max(n,0), count)` |
| `Sequencias.Contem` | POO_GestaoAlojamentosTuristicos/POO_GestaoAlojamentosTuristicos/Data/RepositorioHotel.cs:56 | `string.Contains`: true iff the text occurs at some position |
| `Sequencias.OrdenarPor` | POO_GestaoAlojamentosTuristicos/POO_GestaoAlojamentosTuristicos/Business/AlojamentoService.cs:159-165 | `OrderBy` under a total preorder: sorted by the key, and a permutation of the input |
| `Sequencias.OrdenarPorEstavel` | POO_GestaoAlojamentosTuristicos/POO_GestaoAlojamentosTuristicos/Business/ClienteService.cs:149-154 | `OrderBy` is stable: for every key, the elements with an equivalent key keep their input order |
| `Sequencias.OrdenarPorOrdenada` | POO_GestaoAlojamentosTuristicos/POO_GestaoAlojamentosTuristicos/Business/AlojamentoService.cs:159-165 | sorting an already sorted list leaves it unchanged |
| `Texto.ApenasDigitos` | POO_GestaoAlojamentosTuristicos/POO_GestaoAlojamentosTuristicos/Models/Cliente.cs:62 | `value.Where(char.IsDigit)`: only digits, never longer than the input, and exactly the input's digits in their order (the input at the increasing positions of its digits) |
| `Texto.ApenasDigitosIdempotente` | POO_GestaoAlojamentosTuristicos/POO_GestaoAlojamentosTuristicos/Models/Cliente.cs:62 | a text of digits is its own digit filter |
| `Texto.ParaMinusculas` | POO_GestaoAlojamentosTuristicos/POO_GestaoAlojamentosTuristicos/Data/RepositorioCliente.cs:69-71 | the case folding behind `OrdinalIgnoreCase`, character by character and length-preserving |
| `Texto.ContemVazio` | POO_GestaoAlojamentosTuristicos/POO_GestaoAlojamentosTuristicos/Business/AlojamentoService.cs:84-85 | every text contains the empty text, ignoring case |
| `Texto.IntParaTexto` | POO_GestaoAlojamentosTuristicos/POO_GestaoAlojamentosTuristicos/Exceptions/Exceptions.cs:46 | `int.ToString()`: non-empty; digits for a non-negative number; for a negative one a `-` followed by at least one digit and nothing but digits |
| `Texto.LerNatParaTexto` | POO_GestaoAlojamentosTuristicos/POO_GestaoAlojamentosTuristicos/Exceptions/Exceptions.cs:45-49 | reading the decimal text of a natural number gives the number back |
| `Texto.LerIntParaTexto` | POO_GestaoAlojamentosTuristicos/POO_GestaoAlojamentosTuristicos/Exceptions/Exceptions.cs:45-49 | the text of any `int`, negative ones included, is a signed decimal that reads back as the number |
| `Texto.OrdinalPreOrdemTotal` | POO_GestaoAlojamentosTuristicos/POO_GestaoAlojamentosTuristicos/Data/RepositorioCliente.cs:96 | the string order used for `OrderBy(c => c.Nome)` is total and transitive |
| `Texto.OrdinalAntissimetrica` | POO_GestaoAlojamentosTuristicos/POO_GestaoAlojamentosTuristicos/Business/ClienteService.cs:152 | two names each ordered before the other are equal |
| `Texto.Utf16` | POO_GestaoAlojamentosTuristicos/POO_GestaoAlojamentosTuristicos/Models/Cliente.cs:35 | the UTF-16 encoding of a character: one unit, the character, inside the Basic Multilingual Plane; otherwise a high then a low surrogate that decode back to the character |
| `Texto.ComprimentoUtf16Limites` | POO_GestaoAlojamentosTuristicos/POO_GestaoAlojamentosTuristicos/Models/Cliente.cs:35 | `string.Length` counts UTF-16 units: between one and two per character, exactly one each inside the Basic Multilingual Plane |
| `Texto.ChaveOrdinal` | POO_GestaoAlojamentosTuristicos/POO_GestaoAlojamentosTuristicos/Data/RepositorioCliente.cs:96 | the rank of a character in code-unit order: its value below U+D800, then the supplementary characters, then U+E000..U+FFFF |
| `Texto.ChaveOrdinalInjetiva` | POO_GestaoAlojamentosTuristicos/POO_GestaoAlojamentosTuristicos/Data/RepositorioCliente.cs:96 | different characters have different ranks |
| `Texto.UnidadesPrefixoComum` | POO_GestaoAlojamentosTuristicos/POO_GestaoAlojamentosTuristicos/Data/RepositorioCliente.cs:96 | a common prefix of code units does not decide a lexicographic comparison |
| `Texto.ChaveOrdinalUtf16` | POO_GestaoAlojamentosTuristicos/POO_GestaoAlojamentosTuristicos/Data/RepositorioCliente.cs:96 | two different characters compare by rank exactly as their UTF-16 encodings compare lexicographically, whatever follows |
| `Texto.OrdinalUtf16` | POO_GestaoAlojamentosTuristicos/POO_GestaoAlojamentosTuristicos/Data/RepositorioCliente.cs:96 | the name order is the lexicographic order of the names' UTF-16 code units (`string.CompareOrdinal`) |
| `Erros.EntidadeNula` | POO_GestaoAlojamentosTuristicos/POO_GestaoAlojamentosTuristicos/Data/RepositorioBase.cs:32-33 | a null entity is a validation error on field "entidade" |
| `Erros.Embrulhar` | POO_GestaoAlojamentosTuristicos/POO_GestaoAlojamentosTuristicos/Exceptions/Exceptions.cs:14-17 | `new AlojamentoException(msg, ex)`: an `AlojamentoException` with that message and `ex` as its inner cause |
| `Erros.MensagemNomeiaCampo` | POO_GestaoAlojamentosTuristicos/POO_GestaoAlojamentosTuristicos/Exceptions/Exceptions.cs:27-31 | the lower-cased message of a field validation error contains the lower-cased field name |
| `Erros.MensagemNomeiaId` | POO_GestaoAlojamentosTuristicos/POO_GestaoAlojamentosTuristicos/Exceptions/Exceptions.cs:45-49 | the not-found message starts with the kind and carries the id in decimal, with a minus sign when negative, readable back as that id for every `int` |
| `Erros.PersistenciaComCausa` | POO_GestaoAlojamentosTuristicos/POO_GestaoAlojamentosTuristicos/Exceptions/Exceptions.cs:61-64 | a persistence error with a cause: message prefixed "Erro de persistência: ", contains the detail, keeps the cause, is an `AlojamentoException` |
| `Ficheiros.ErroGuardar` | POO_GestaoAlojamentosTuristicos/POO_GestaoAlojamentosTuristicos/Data/RepositorioBase.cs:55-58 | a failed save is a persistence error with an inner cause |
| `Ficheiros.ErroCarregar` | POO_GestaoAlojamentosTuristicos/POO_GestaoAlojamentosTuristicos/Data/RepositorioBase.cs:75-78 | a failed load is a persistence error whose inner cause is what failed |
| `Ficheiros.Escrever` | POO_GestaoAlojamentosTuristicos/POO_GestaoAlojamentosTuristicos/Data/RepositorioBase.cs:46-59 | the write succeeds iff the file is writable; then the file exists and holds exactly the records; otherwise it throws the save error |
| `Ficheiros.Ler` | POO_GestaoAlojamentosTuristicos/POO_GestaoAlojamentosTuristicos/Data/RepositorioBase.cs:61-79 | nothing to load iff the file is missing or blank; `null` gives the empty list; the records otherwise; any failure is a persistence error with a cause |
| `Ficheiros.LerAposEscrever` | POO_GestaoAlojamentosTuristicos/POO_GestaoAlojamentosTuristicos/Data/RepositorioBase.cs:46-79 | reading a file back after a successful write gives the written records |
| `Alojamentos.ValidarBase` | POO_GestaoAlojamentosTuristicos/POO_GestaoAlojamentosTuristicos/Models/Alojamento.cs:55-61 | the base fields pass iff id > 0, the address is not blank and the price ≥ 0; the reported field is the first failing one in the order Id, Endereco, PrecoPorNoite |
| `Alojamentos.NovoHotel` | POO_GestaoAlojamentosTuristicos/POO_GestaoAlojamentosTuristicos/Models/Hotel.cs:15-34 | a hotel is built iff the base fields are valid and 1 ≤ stars ≤ 5; it then holds exactly the arguments; "NumeroEstrelas" is reported iff the base fields passed |
| `Alojamentos.NovoApartamento` | POO_GestaoAlojamentosTuristicos/POO_GestaoAlojamentosTuristicos/Models/Apartamento.cs:15-38 | an apartment is built iff the base fields are valid and rooms ≥ 1; it then holds exactly the arguments, garage flag as given; "NumeroQuartos" is reported iff the base fields passed |
| `Alojamentos.ReconstruirValido` | POO_GestaoAlojamentosTuristicos/POO_GestaoAlojamentosTuristicos/Models/Alojamento.cs:19-50 | running the constructor on an accommodation's own fields gives it back iff it is valid; otherwise it fails |
| `Alojamentos.CalcularTaxaServico` | POO_GestaoAlojamentosTuristicos/POO_GestaoAlojamentosTuristicos/Models/Apartamento.cs:43-48 | the fee lies between 10% of the price and that plus 5.0; it is exactly 10% iff the accommodation is not an apartment with a garage; non-negative for a valid price |
| `Alojamentos.GaragemCustaCinco` | POO_GestaoAlojamentosTuristicos/POO_GestaoAlojamentosTuristicos/Models/Apartamento.cs:43-48 | at equal price, an apartment with a garage costs exactly 5.0 more in fees than one without |
| `Alojamentos.ClassificarHotel` | POO_GestaoAlojamentosTuristicos/POO_GestaoAlojamentosTuristicos/Models/Hotel.cs:39-48 | "Luxo" iff 5 stars, "Superior" iff 4, "Conforto" iff 3, "Standard" iff any other number |
| `Alojamentos.Rotulo` | POO_GestaoAlojamentosTuristicos/POO_GestaoAlojamentosTuristicos/Models/Hotel.cs:64-66 | a hotel's text starts with "Hotel ", an apartment's with "Apartamento T" |
| `Alojamentos.ParaTextoIdentifica` | POO_GestaoAlojamentosTuristicos/POO_GestaoAlojamentosTuristicos/Models/Alojamento.cs:80-83 | `ToString` starts with the kind's label and contains the address and the id |
| `Alojamentos.DetalhesIdentificam` | POO_GestaoAlojamentosTuristicos/POO_GestaoAlojamentosTuristicos/Models/Hotel.cs:53-59 | `ObterDetalhes` contains the address, and for a hotel its classification |
| `Clientes.EhCorpoEmail` | POO_GestaoAlojamentosTuristicos/POO_GestaoAlojamentosTuristicos/Models/Cliente.cs:96-97 | the executable matcher agrees with the declarative reading of `^[^@\s]+@[^@\s]+\.[^@\s]+$` |
| `Clientes.ArrobaUnica` | POO_GestaoAlojamentosTuristicos/POO_GestaoAlojamentosTuristicos/Models/Cliente.cs:96 | an accepted e-mail has exactly one `@`, the one its decomposition splits at |
| `Clientes.CasaPadraoNaoEmBranco` | POO_GestaoAlojamentosTuristicos/POO_GestaoAlojamentosTuristicos/Models/Cliente.cs:92-93 | an e-mail that matches the pattern is not blank |
| `Clientes.ValidarFormatoEmail` | POO_GestaoAlojamentosTuristicos/POO_GestaoAlojamentosTuristicos/Models/Cliente.cs:90-98 | true iff the e-mail matches the pattern |
| `Clientes.VerificarId` | POO_GestaoAlojamentosTuristicos/POO_GestaoAlojamentosTuristicos/Models/Cliente.cs:17-26 | passes iff id > 0, else a validation error on "Id" |
| `Clientes.VerificarNome` | POO_GestaoAlojamentosTuristicos/POO_GestaoAlojamentosTuristicos/Models/Cliente.cs:28-39 | passes iff the name is not blank and its untrimmed `Length`, counted in UTF-16 code units, is ≥ 3; else an error on "Nome": the blank message for a blank name, the short message for a short one |
| `Clientes.VerificarEmail` | POO_GestaoAlojamentosTuristicos/POO_GestaoAlojamentosTuristicos/Models/Cliente.cs:41-52 | passes iff the e-mail matches the pattern; else an error on "Email", the blank message for a blank e-mail |
| `Clientes.NormalizarTelefone` | POO_GestaoAlojamentosTuristicos/POO_GestaoAlojamentosTuristicos/Models/Cliente.cs:54-74 | succeeds iff the phone is blank or has ≥ 9 digits; then the result is "" or exactly its digits, always in normal form; else an error on "Telefone" |
| `Clientes.NormalizarTelefoneIdempotente` | POO_GestaoAlojamentosTuristicos/POO_GestaoAlojamentosTuristicos/Models/Cliente.cs:62-71 | a phone in normal form ("" or ≥ 9 digits only) normalises to itself |
| `Clientes.ValidarCliente` | POO_GestaoAlojamentosTuristicos/POO_GestaoAlojamentosTuristicos/Models/Cliente.cs:79-85 | the constructor succeeds iff all four setters accept; the client then holds the id, name and e-mail verbatim and the normalised phone, and is valid |
| `Clientes.ValidarClienteCampoDoErro` | POO_GestaoAlojamentosTuristicos/POO_GestaoAlojamentosTuristicos/Models/Cliente.cs:79-85 | the reported field is the first failing one in the order Id, Nome, Email, Telefone |
| `Clientes.ValidarClienteReconstroi` | POO_GestaoAlojamentosTuristicos/POO_GestaoAlojamentosTuristicos/Models/Cliente.cs:79-85 | constructing from a client's own properties gives them back iff they are valid |
| `Clientes.InformacoesMostram` | POO_GestaoAlojamentosTuristicos/POO_GestaoAlojamentosTuristicos/Models/Cliente.cs:103-108 | `ObterInformacoes` shows the name and e-mail, and the phone or "Não informado" when it is blank |
| `Clientes.ParaTextoMostra` | POO_GestaoAlojamentosTuristicos/POO_GestaoAlojamentosTuristicos/Models/Cliente.cs:110-113 | `ToString` shows the name and the e-mail |
| `Clientes.Cliente.constructor` | POO_GestaoAlojamentosTuristicos/POO_GestaoAlojamentosTuristicos/Models/Cliente.cs:10-15 | a fresh object has default fields (the object before its constructor's setters run) |
| `Clientes.Cliente.DefinirId` | POO_GestaoAlojamentosTuristicos/POO_GestaoAlojamentosTuristicos/Models/Cliente.cs:17-26 | the `Id` setter: the outcome of the check; the field changes only when it passes; validity is kept |
| `Clientes.Cliente.DefinirNome` | POO_GestaoAlojamentosTuristicos/POO_GestaoAlojamentosTuristicos/Models/Cliente.cs:28-39 | the `Nome` setter: a rejected value leaves the old name; validity is kept |
| `Clientes.Cliente.DefinirEmail` | POO_GestaoAlojamentosTuristicos/POO_GestaoAlojamentosTuristicos/Models/Cliente.cs:41-52 | the `Email` setter: a rejected value leaves the old e-mail; validity is kept |
| `Clientes.Cliente.DefinirTelefone` | POO_GestaoAlojamentosTuristicos/POO_GestaoAlojamentosTuristicos/Models/Cliente.cs:54-74 | the `Telefone` setter: stores the normalised phone, or keeps the old one on error; validity is kept |
| `Clientes.Cliente.Novo` | POO_GestaoAlojamentosTuristicos/POO_GestaoAlojamentosTuristicos/Models/Cliente.cs:79-85 | `new Cliente(...)`: a fresh valid client whose properties are `ValidarCliente`'s result, or that function's error |
| `RepositorioAlojamentos.Ids` | POO_GestaoAlojamentosTuristicos/POO_GestaoAlojamentosTuristicos/Data/RepositorioHotel.cs:47 | the ids of the list, position by position |
| `RepositorioAlojamentos.IndiceDe` | POO_GestaoAlojamentosTuristicos/POO_GestaoAlojamentosTuristicos/Data/RepositorioHotel.cs:28-30 | none iff the id is absent; otherwise the first position holding it |
| `RepositorioAlojamentos.ProcurarPorId` | POO_GestaoAlojamentosTuristicos/POO_GestaoAlojamentosTuristicos/Data/RepositorioHotel.cs:15-21 | `ObterPorId`: fails with not-found(kind, id) iff the id is absent; otherwise the first element with that id |
| `RepositorioAlojamentos.Acrescentar` | POO_GestaoAlojamentosTuristicos/POO_GestaoAlojamentosTuristicos/Data/RepositorioBase.cs:30-37 | `Adicionar`: null is the null-entity error; otherwise one longer, the old list as prefix, the entity last |
| `RepositorioAlojamentos.Substituir` | POO_GestaoAlojamentosTuristicos/POO_GestaoAlojamentosTuristicos/Data/RepositorioApartamento.cs:23-34 | `Atualizar`: null → null-entity error; unknown id → not-found; otherwise the same length and ids, lookup finds the new entity, only the first matching position changes |
| `RepositorioAlojamentos.Retirar` | POO_GestaoAlojamentosTuristicos/POO_GestaoAlojamentosTuristicos/Data/RepositorioApartamento.cs:36-43 | `Remover`: unknown id → not-found; otherwise the list without exactly the first element with the id (one shorter, the multiset less the element `ObterPorId` finds) |
| `RepositorioAlojamentos.ProximoIdDe` | POO_GestaoAlojamentosTuristicos/POO_GestaoAlojamentosTuristicos/Data/RepositorioApartamento.cs:45-48 | `GerarProximoId`: 1 on an empty list |
| `RepositorioAlojamentos.ProximoIdNovo` | POO_GestaoAlojamentosTuristicos/POO_GestaoAlojamentosTuristicos/Data/RepositorioHotel.cs:45-48 | below `int.MaxValue`, the generated id is positive and new, and appending it keeps ids unique |
| `RepositorioAlojamentos.BuscarEndereco` | POO_GestaoAlojamentosTuristicos/POO_GestaoAlojamentosTuristicos/Data/RepositorioHotel.cs:50-58 | `BuscarPorEndereco`: empty for blank text; otherwise exactly the elements whose address contains the text, ignoring case, none missed, in list order and with their multiplicity |
| `RepositorioAlojamentos.MaisCaros` | POO_GestaoAlojamentosTuristicos/POO_GestaoAlojamentosTuristicos/Data/RepositorioHotel.cs:60-63 | `ObterMaisCaros(n)`: `min(n, count)` elements drawn from the list, dearest first |
| `RepositorioAlojamentos.MaisCarosSaoOsMaisCaros` | POO_GestaoAlojamentosTuristicos/POO_GestaoAlojamentosTuristicos/Data/RepositorioHotel.cs:62 | every chosen accommodation costs at least as much as every one left out |
| `RepositorioAlojamentos.Desserializar` | POO_GestaoAlojamentosTuristicos/POO_GestaoAlojamentosTuristicos/Data/RepositorioBase.cs:72 | a record goes through the kind's constructor: the result is valid and of the kind, and a valid record comes back unchanged |
| `RepositorioAlojamentos.DesserializarTodos` | POO_GestaoAlojamentosTuristicos/POO_GestaoAlojamentosTuristicos/Data/RepositorioBase.cs:72 | the list loads iff every record constructs; then element by element; otherwise with some record's error |
| `RepositorioAlojamentos.CarregarDe` | POO_GestaoAlojamentosTuristicos/POO_GestaoAlojamentosTuristicos/Data/RepositorioBase.cs:61-79 | `Carregar`'s outcome: nothing to load iff the file has nothing; a read error as it is; an empty list for `null`; for records, the deserialized list, or a load error wrapping the record's error; a loaded list is consistent with the kind |
| `RepositorioAlojamentos.CarregarAposGuardar` | POO_GestaoAlojamentosTuristicos/POO_GestaoAlojamentosTuristicos/Data/RepositorioBase.cs:46-79 | `Guardar` then `Carregar` restores exactly the saved list |
| `RepositorioAlojamentos.ProcurarAposAcrescentar` | POO_GestaoAlojamentosTuristicos/POO_GestaoAlojamentosTuristicos/Data/RepositorioHotel.cs:15-21 | after appending, a new id finds the appended entity, and an existing id still finds the earlier one |
| `RepositorioAlojamentos.RetirarDesfazAcrescentar` | POO_GestaoAlojamentosTuristicos/POO_GestaoAlojamentosTuristicos/Data/RepositorioHotel.cs:36-43 | removing the id of an entity just appended with a new id gives the old list back |
| `RepositorioAlojamentos.RetirarRemoveId` | POO_GestaoAlojamentosTuristicos/POO_GestaoAlojamentosTuristicos/Data/RepositorioApartamento.cs:36-43 | with unique ids, removal succeeds, the id is gone and ids stay unique |
| `RepositorioAlojamentos.RepositorioAlojamento.constructor` | POO_GestaoAlojamentosTuristicos/POO_GestaoAlojamentosTuristicos/Data/RepositorioBase.cs:19-28 | an empty list over the kind's file |
| `RepositorioAlojamentos.RepositorioAlojamento.ObterTodos` | POO_GestaoAlojamentosTuristicos/POO_GestaoAlojamentosTuristicos/Data/RepositorioBase.cs:39-42 | as many accommodations as `Contar` reports |
| `RepositorioAlojamentos.RepositorioAlojamento.Contar` | POO_GestaoAlojamentosTuristicos/POO_GestaoAlojamentosTuristicos/Data/RepositorioBase.cs:44 | the number of stored entities |
| `RepositorioAlojamentos.RepositorioAlojamento.Adicionar` | POO_GestaoAlojamentosTuristicos/POO_GestaoAlojamentosTuristicos/Data/RepositorioBase.cs:30-37 | the list becomes `Acrescentar`'s result; a null entity fails and changes nothing |
| `RepositorioAlojamentos.RepositorioAlojamento.Atualizar` | POO_GestaoAlojamentosTuristicos/POO_GestaoAlojamentosTuristicos/Data/RepositorioHotel.cs:23-34 | the list becomes `Substituir`'s result; on error it is unchanged |
| `RepositorioAlojamentos.RepositorioAlojamento.Remover` | POO_GestaoAlojamentosTuristicos/POO_GestaoAlojamentosTuristicos/Data/RepositorioHotel.cs:36-43 | the list becomes `Retirar`'s result; on error it is unchanged |
| `RepositorioAlojamentos.RepositorioAlojamento.Guardar` | POO_GestaoAlojamentosTuristicos/POO_GestaoAlojamentosTuristicos/Data/RepositorioBase.cs:46-59 | succeeds iff the file is writable, which then holds the list; otherwise the save error and the file untouched |
| `RepositorioAlojamentos.RepositorioAlojamento.Carregar` | POO_GestaoAlojamentosTuristicos/POO_GestaoAlojamentosTuristicos/Data/RepositorioBase.cs:61-79 | false with the list untouched when nothing is to be loaded; true and the list replaced wholesale on success; the error and the list untouched on failure |
| `RepositorioClientes.IdsDe` | POO_GestaoAlojamentosTuristicos/POO_GestaoAlojamentosTuristicos/Data/RepositorioCliente.cs:105 | the clients' ids, position by position |
| `RepositorioClientes.IndiceId` | POO_GestaoAlojamentosTuristicos/POO_GestaoAlojamentosTuristicos/Data/RepositorioCliente.cs:21-29 | none iff the id is absent; otherwise the first position holding it |
| `RepositorioClientes.IndiceEmail` | POO_GestaoAlojamentosTuristicos/POO_GestaoAlojamentosTuristicos/Data/RepositorioCliente.cs:77-84 | none iff the e-mail is blank or matches nobody, ignoring case; otherwise the first match |
| `RepositorioClientes.EmailExisteSeEncontrado` | POO_GestaoAlojamentosTuristicos/POO_GestaoAlojamentosTuristicos/Data/RepositorioCliente.cs:64-72 | `EmailJaExiste(e)` without an id to ignore holds iff `ObterPorEmail(e)` finds a client |
| `RepositorioClientes.OrdenarPorNome` | POO_GestaoAlojamentosTuristicos/POO_GestaoAlojamentosTuristicos/Data/RepositorioCliente.cs:96 | `OrderBy(c => c.Nome)`: a permutation sorted by name |
| `RepositorioClientes.OrdenarPorNomeEstavel` | POO_GestaoAlojamentosTuristicos/POO_GestaoAlojamentosTuristicos/Business/ClienteService.cs:151-153 | clients with the same name keep their list order |
| `RepositorioClientes.BuscarNome` | POO_GestaoAlojamentosTuristicos/POO_GestaoAlojamentosTuristicos/Data/RepositorioCliente.cs:89-98 | empty for a blank query; otherwise a name-sorted permutation of exactly the entries whose name contains the query, ignoring case |
| `RepositorioClientes.BuscarNomeEmClientes` | POO_GestaoAlojamentosTuristicos/POO_GestaoAlojamentosTuristicos/Data/RepositorioCliente.cs:94-97 | every client found is in the list, matches the query, and they come sorted by name |
| `RepositorioClientes.BuscarNomeCompleto` | POO_GestaoAlojamentosTuristicos/POO_GestaoAlojamentosTuristicos/Data/RepositorioCliente.cs:94-95 | a non-blank name search misses no matching client |
| `RepositorioClientes.Construir` | POO_GestaoAlojamentosTuristicos/POO_GestaoAlojamentosTuristicos/Data/RepositorioBase.cs:72 | a client record goes through the constructor: the result is valid, and a valid record comes back unchanged |
| `RepositorioClientes.ValidarTodos` | POO_GestaoAlojamentosTuristicos/POO_GestaoAlojamentosTuristicos/Data/RepositorioBase.cs:72 | the list loads iff every record constructs, and then record by record |
| `RepositorioClientes.ValidarTodosPrimeiraFalha` | POO_GestaoAlojamentosTuristicos/POO_GestaoAlojamentosTuristicos/Data/RepositorioBase.cs:72-78 | loading fails with the error of the first record that fails |
| `RepositorioClientes.ConstruirClientes` | POO_GestaoAlojamentosTuristicos/POO_GestaoAlojamentosTuristicos/Data/RepositorioBase.cs:72 | a fresh, distinct client object per record whose properties are `ValidarTodos`' result, or its error |
| `RepositorioClientes.CarregarDe` | POO_GestaoAlojamentosTuristicos/POO_GestaoAlojamentosTuristicos/Data/RepositorioBase.cs:61-79 | `Carregar`'s outcome: nothing to load iff the file has nothing; a read error as it is; an empty list for `null`; for records, the validated clients, or a load error wrapping the first invalid record's error; loaded clients are valid |
| `RepositorioClientes.CarregarAposGuardar` | POO_GestaoAlojamentosTuristicos/POO_GestaoAlojamentosTuristicos/Data/RepositorioBase.cs:46-79 | saving valid clients and loading them back gives the same records |
| `RepositorioClientes.AcrescentarMantemEmailsUnicos` | POO_GestaoAlojamentosTuristicos/POO_GestaoAlojamentosTuristicos/Data/RepositorioCliente.cs:111-120 | appending a client whose e-mail `EmailJaExiste` rejects nobody for keeps e-mails unique, ignoring case |
| `RepositorioClientes.TrocarEmailMantemEmailsUnicos` | POO_GestaoAlojamentosTuristicos/POO_GestaoAlojamentosTuristicos/Business/ClienteService.cs:60-68 | changing a client's e-mail to one no other client has keeps e-mails unique |
| `RepositorioClientes.RemoverEmEmailsUnicos` | POO_GestaoAlojamentosTuristicos/POO_GestaoAlojamentosTuristicos/Data/RepositorioCliente.cs:51-59 | removing a client keeps e-mails unique |
| `RepositorioClientes.RemoverEmTodosValidos` | POO_GestaoAlojamentosTuristicos/POO_GestaoAlojamentosTuristicos/Data/RepositorioCliente.cs:51-59 | removing a client keeps every remaining client valid |
| `RepositorioClientes.VistaDeRemoverEm` | POO_GestaoAlojamentosTuristicos/POO_GestaoAlojamentosTuristicos/Data/RepositorioCliente.cs:57 | removing a reference removes that client's properties from the view |
| `RepositorioClientes.RepositorioCliente.constructor` | POO_GestaoAlojamentosTuristicos/POO_GestaoAlojamentosTuristicos/Data/RepositorioCliente.cs:14-16 | an empty client list over "clientes.json" |
| `RepositorioClientes.RepositorioCliente.ObterTodos` | POO_GestaoAlojamentosTuristicos/POO_GestaoAlojamentosTuristicos/Data/RepositorioBase.cs:39-42 | as many clients as `Contar` reports |
| `RepositorioClientes.RepositorioCliente.Contar` | POO_GestaoAlojamentosTuristicos/POO_GestaoAlojamentosTuristicos/Data/RepositorioBase.cs:44 | the number of stored clients |
| `RepositorioClientes.RepositorioCliente.ObterPorId` | POO_GestaoAlojamentosTuristicos/POO_GestaoAlojamentosTuristicos/Data/RepositorioCliente.cs:21-29 | fails with not-found("Cliente", id) iff the id is absent; otherwise the first client with it |
| `RepositorioClientes.RepositorioCliente.ObterPorEmail` | POO_GestaoAlojamentosTuristicos/POO_GestaoAlojamentosTuristicos/Data/RepositorioCliente.cs:77-84 | null iff the e-mail is blank or unknown; otherwise a stored client with that e-mail, ignoring case |
| `RepositorioClientes.RepositorioCliente.BuscarPorNome` | POO_GestaoAlojamentosTuristicos/POO_GestaoAlojamentosTuristicos/Data/RepositorioCliente.cs:89-98 | empty for a blank query; otherwise the stored clients whose name contains it, ignoring case, none missed, sorted by name |
| `RepositorioClientes.RepositorioCliente.GerarProximoId` | POO_GestaoAlojamentosTuristicos/POO_GestaoAlojamentosTuristicos/Data/RepositorioCliente.cs:103-106 | 1 for an empty repository |
| `RepositorioClientes.RepositorioCliente.Adicionar` | POO_GestaoAlojamentosTuristicos/POO_GestaoAlojamentosTuristicos/Data/RepositorioCliente.cs:111-120 | null → null-entity error; a known e-mail → error on "Email", list unchanged; otherwise the client appended at the end |
| `RepositorioClientes.RepositorioCliente.Atualizar` | POO_GestaoAlojamentosTuristicos/POO_GestaoAlojamentosTuristicos/Data/RepositorioCliente.cs:34-46 | null → null-entity error; unknown id → not-found; otherwise the first position with the id now holds the entity, nothing else changes; the e-mail is not re-checked |
| `RepositorioClientes.RepositorioCliente.Remover` | POO_GestaoAlojamentosTuristicos/POO_GestaoAlojamentosTuristicos/Data/RepositorioCliente.cs:51-59 | unknown id → not-found, list unchanged; otherwise exactly the first client with the id is removed, the others keep their order |
| `RepositorioClientes.RepositorioCliente.Guardar` | POO_GestaoAlojamentosTuristicos/POO_GestaoAlojamentosTuristicos/Data/RepositorioBase.cs:46-59 | succeeds iff the file is writable, which then holds the clients' properties; the clients are untouched |
| `RepositorioClientes.RepositorioCliente.Carregar` | POO_GestaoAlojamentosTuristicos/POO_GestaoAlojamentosTuristicos/Data/RepositorioBase.cs:61-79 | false with the list untouched when nothing is to be loaded; on success, fresh distinct client objects with the loaded properties; the error otherwise |
| `ServicoAlojamentos.IndiceDeConcat` | POO_GestaoAlojamentosTuristicos/POO_GestaoAlojamentosTuristicos/Business/AlojamentoService.cs:70-79 | the first position of an id in hotels-then-apartments is in the hotels when they hold it, else offset into the apartments |
| `ServicoAlojamentos.BuscarVazioDevolveTodos` | POO_GestaoAlojamentosTuristicos/POO_GestaoAlojamentosTuristicos/Business/AlojamentoService.cs:81-87 | filtering by the empty address keeps every accommodation |
| `ServicoAlojamentos.MenorPreco` | POO_GestaoAlojamentosTuristicos/POO_GestaoAlojamentosTuristicos/Business/AlojamentoService.cs:146 | `Min(a => a.PrecoPorNoite)`: a price in the list that no price undercuts |
| `ServicoAlojamentos.MaiorPreco` | POO_GestaoAlojamentosTuristicos/POO_GestaoAlojamentosTuristicos/Business/AlojamentoService.cs:147 | `Max(a => a.PrecoPorNoite)`: a price in the list that no price exceeds |
| `ServicoAlojamentos.MediaEntreExtremos` | POO_GestaoAlojamentosTuristicos/POO_GestaoAlojamentosTuristicos/Business/AlojamentoService.cs:145-147 | the mean price lies between the minimum and the maximum |
| `ServicoAlojamentos.EstatisticasDe` | POO_GestaoAlojamentosTuristicos/POO_GestaoAlojamentosTuristicos/Business/AlojamentoService.cs:126-149 | all zeros for no accommodation; otherwise the counts, the mean as the sum of the prices over the count, and min ≤ mean ≤ max with min and max attained and bounding every price |
| `ServicoAlojamentos.PorPrecoNoIntervalo` | POO_GestaoAlojamentosTuristicos/POO_GestaoAlojamentosTuristicos/Business/AlojamentoService.cs:89-95 | exactly the accommodations priced in [min, max], cheapest first |
| `ServicoAlojamentos.PorPrecoNoIntervaloEstavel` | POO_GestaoAlojamentosTuristicos/POO_GestaoAlojamentosTuristicos/Business/AlojamentoService.cs:89-95 | the price search is the stable cheapest-first sort of the accommodations in range, so those of equal price keep their hotels-then-apartments order |
| `ServicoAlojamentos.OrdenadosPorPreco` | POO_GestaoAlojamentosTuristicos/POO_GestaoAlojamentosTuristicos/Business/AlojamentoService.cs:159-165 | a permutation sorted ascending or descending by price |
| `ServicoAlojamentos.OrdenadosPorPrecoEstavel` | POO_GestaoAlojamentosTuristicos/POO_GestaoAlojamentosTuristicos/Business/AlojamentoService.cs:162-164 | both price sorts are stable: accommodations of equal price keep their list order |
| `ServicoAlojamentos.MaisCarosPrefixo` | POO_GestaoAlojamentosTuristicos/POO_GestaoAlojamentosTuristicos/Business/AlojamentoService.cs:151-157 | the top-N is a prefix of the dearest-first order |
| `ServicoAlojamentos.EmIntervaloPermutacao` | POO_GestaoAlojamentosTuristicos/POO_GestaoAlojamentosTuristicos/Business/AlojamentoService.cs:94 | reordering accommodations within the price bounds keeps them within the bounds |
| `ServicoAlojamentos.ServicoAlojamento.constructor` | POO_GestaoAlojamentosTuristicos/POO_GestaoAlojamentosTuristicos/Business/AlojamentoService.cs:19-26 | two fresh repositories over "hoteis.json" and "apartamentos.json", each holding what loads or, when loading throws, nothing |
| `ServicoAlojamentos.ServicoAlojamento.AdicionarHotel` | POO_GestaoAlojamentosTuristicos/POO_GestaoAlojamentosTuristicos/Business/AlojamentoService.cs:30-38 | a hotel with the next id and the first string as address is appended and saved; a construction error propagates with nothing added; ids stay unique |
| `ServicoAlojamentos.ServicoAlojamento.AdicionarApartamento` | POO_GestaoAlojamentosTuristicos/POO_GestaoAlojamentosTuristicos/Business/AlojamentoService.cs:40-48 | likewise for apartments: a constructor error with nothing changed; otherwise appended, saved iff the file is writable, the file written with the new list, and a failed save reported as the save error with the file untouched |
| `ServicoAlojamentos.ServicoAlojamento.AdicionarEGuardar` | POO_GestaoAlojamentosTuristicos/POO_GestaoAlojamentosTuristicos/Business/AlojamentoService.cs:35-37 | `Adicionar` then `Guardar` on one repository: appended, then saved or the save error |
| `ServicoAlojamentos.ServicoAlojamento.ListarTodos` | POO_GestaoAlojamentosTuristicos/POO_GestaoAlojamentosTuristicos/Business/AlojamentoService.cs:58-64 | as many entries as both repositories together, hotels first: a position holds a hotel iff it is below the hotel count |
| `ServicoAlojamentos.ServicoAlojamento.ObterPorId` | POO_GestaoAlojamentosTuristicos/POO_GestaoAlojamentosTuristicos/Business/AlojamentoService.cs:70-79 | not-found("Alojamento", id) iff the id is in neither list; otherwise the first match in hotels-then-apartments |
| `ServicoAlojamentos.ServicoAlojamento.BuscarPorEndereco` | POO_GestaoAlojamentosTuristicos/POO_GestaoAlojamentosTuristicos/Business/AlojamentoService.cs:81-87 | the case-insensitive address filter over hotels-then-apartments, with no blank-query shortcut: `""` gives everything |
| `ServicoAlojamentos.ServicoAlojamento.BuscarPorPreco` | POO_GestaoAlojamentosTuristicos/POO_GestaoAlojamentosTuristicos/Business/AlojamentoService.cs:89-95 | a permutation of the accommodations priced in [min, max], cheapest first; it is the stable price sort of them, so ties keep `ListarTodos()` order |
| `ServicoAlojamentos.ServicoAlojamento.Remover` | POO_GestaoAlojamentosTuristicos/POO_GestaoAlojamentosTuristicos/Business/AlojamentoService.cs:101-120 | not-found with nothing changed iff the id is in neither list; otherwise removed from the hotels if there, else from the apartments, the other list untouched; that repository's file is rewritten with its new list on success, and on failure left as it was with the save error reported |
| `ServicoAlojamentos.ServicoAlojamento.RemoverEGuardar` | POO_GestaoAlojamentosTuristicos/POO_GestaoAlojamentosTuristicos/Business/AlojamentoService.cs:106-107 | `Remover` then `Guardar` on the repository that holds the id: the list is `Retirar`'s; passes iff the file is writable, which then holds the new list; else the save error with the file untouched |
| `ServicoAlojamentos.ServicoAlojamento.ObterEstatisticas` | POO_GestaoAlojamentosTuristicos/POO_GestaoAlojamentosTuristicos/Business/AlojamentoService.cs:126-149 | zeros when empty; otherwise hotels and apartments are each repository's count and their total `ContarTotal`, the mean is the sum over the count, min ≤ mean ≤ max, min and max are prices of the list, and every price lies between them |
| `ServicoAlojamentos.ServicoAlojamento.ObterMaisCaros` | POO_GestaoAlojamentosTuristicos/POO_GestaoAlojamentosTuristicos/Business/AlojamentoService.cs:151-157 | `min(n, total)` elements, the prefix of the dearest-first order, none cheaper than any left out |
| `ServicoAlojamentos.ServicoAlojamento.ObterOrdenadosPorPreco` | POO_GestaoAlojamentosTuristicos/POO_GestaoAlojamentosTuristicos/Business/AlojamentoService.cs:159-165 | a permutation of `ListarTodos` sorted ascending or descending by price |
| `ServicoAlojamentos.ServicoAlojamento.ContarTotal` | POO_GestaoAlojamentosTuristicos/POO_GestaoAlojamentosTuristicos/Business/AlojamentoService.cs:167 | the hotel count plus the apartment count |
| `ServicoClientes.AplicarAlteracoes` | POO_GestaoAlojamentosTuristicos/POO_GestaoAlojamentosTuristicos/Business/ClienteService.cs:67-69 | the three setters in order, the first failure stopping the rest: a failing `Nome` changes nothing; a failing `Email` keeps the new name and reports the e-mail error; a failing `Telefone` keeps the new name and e-mail and reports the phone error; all passing sets all three, as the constructor would build; the id is kept; a valid client stays valid |
| `ServicoClientes.AlterarEm` | POO_GestaoAlojamentosTuristicos/POO_GestaoAlojamentosTuristicos/Business/ClienteService.cs:63-69 | the update applied to the first stored client with that id: that client becomes `AplicarAlteracoes`' client, the outcome is its outcome, and every other position, including later ones with the same id, is untouched |
| `ServicoClientes.AlteracoesComoNovo` | POO_GestaoAlojamentosTuristicos/POO_GestaoAlojamentosTuristicos/Business/ClienteService.cs:67-69 | on a valid client, the setters succeed iff the constructor would, with the same result |
| `ServicoClientes.AlterarMantemUnicidade` | POO_GestaoAlojamentosTuristicos/POO_GestaoAlojamentosTuristicos/Business/ClienteService.cs:60-69 | replacing a client, same id, by one whose e-mail is its own or used by nobody else keeps e-mails and ids unique |
| `ServicoClientes.AcrescentarMantemUnicidade` | POO_GestaoAlojamentosTuristicos/POO_GestaoAlojamentosTuristicos/Business/ClienteService.cs:39-42 | appending a valid client with the generated id and an unused e-mail keeps e-mails and ids unique |
| `ServicoClientes.RemoverMantemUnicidade` | POO_GestaoAlojamentosTuristicos/POO_GestaoAlojamentosTuristicos/Business/ClienteService.cs:88 | removing a client keeps e-mails and ids unique |
| `ServicoClientes.OrdenadosPorNome` | POO_GestaoAlojamentosTuristicos/POO_GestaoAlojamentosTuristicos/Business/ClienteService.cs:149-154 | a permutation of the clients sorted by name |
| `ServicoClientes.IdNovoAcimaDeTodos` | POO_GestaoAlojamentosTuristicos/POO_GestaoAlojamentosTuristicos/Data/RepositorioCliente.cs:103-106 | a positive generated id is above every stored id |
| `ServicoClientes.AplicarEm` | POO_GestaoAlojamentosTuristicos/POO_GestaoAlojamentosTuristicos/Business/ClienteService.cs:67-69 | running the setters on the object gives `AplicarAlteracoes`' client and outcome |
| `ServicoClientes.AlterarNaLista` | POO_GestaoAlojamentosTuristicos/POO_GestaoAlojamentosTuristicos/Business/ClienteService.cs:63-69 | updating a stored client through its reference changes that one position of the repository's view and no other |
| `ServicoClientes.ServicoCliente.constructor` | POO_GestaoAlojamentosTuristicos/POO_GestaoAlojamentosTuristicos/Business/ClienteService.cs:17-30 | a fresh repository over "clientes.json" holding what loads, or nothing when loading throws |
| `ServicoClientes.ServicoCliente.Adicionar` | POO_GestaoAlojamentosTuristicos/POO_GestaoAlojamentosTuristicos/Business/ClienteService.cs:35-51 | a client with the next id is appended and saved; a constructor error or a duplicate e-mail comes back wrapped with nothing changed; a failed save comes back as the save error wrapped in "Erro ao adicionar cliente."; every failure is an `AlojamentoException` with that message; uniqueness kept |
| `ServicoClientes.ServicoCliente.Acrescentar` | POO_GestaoAlojamentosTuristicos/POO_GestaoAlojamentosTuristicos/Business/ClienteService.cs:42 | the repository's `Adicionar` of a valid client: appended unless its e-mail is known; uniqueness kept |
| `ServicoClientes.ServicoCliente.GuardarEmbrulhado` | POO_GestaoAlojamentosTuristicos/POO_GestaoAlojamentosTuristicos/Business/ClienteService.cs:89-95 | `Guardar` inside the service's `catch`: a failed save comes back wrapped with the given message |
| `ServicoClientes.ServicoCliente.Atualizar` | POO_GestaoAlojamentosTuristicos/POO_GestaoAlojamentosTuristicos/Business/ClienteService.cs:56-79 | an e-mail used by another client, or an unknown id, fails wrapped with nothing changed; otherwise the setters' partial result stays in memory, and only full success is saved; a failed save comes back as the save error wrapped in "Erro ao atualizar cliente."; uniqueness kept |
| `ServicoClientes.ServicoCliente.AlterarGuardado` | POO_GestaoAlojamentosTuristicos/POO_GestaoAlojamentosTuristicos/Business/ClienteService.cs:67-69 | the setters run on the stored object: the view becomes `AlterarEm`'s; uniqueness kept |
| `ServicoClientes.ServicoCliente.Remover` | POO_GestaoAlojamentosTuristicos/POO_GestaoAlojamentosTuristicos/Business/ClienteService.cs:84-96 | unknown id fails wrapped with nothing changed; otherwise the first client with the id is removed and the list saved; a failed save comes back as the save error wrapped in "Erro ao remover cliente."; uniqueness kept |
| `ServicoClientes.ServicoCliente.Retirar` | POO_GestaoAlojamentosTuristicos/POO_GestaoAlojamentosTuristicos/Business/ClienteService.cs:88 | the repository's `Remover`: not-found, or the first client with the id removed |
| `ServicoClientes.ServicoCliente.ListarTodos` | POO_GestaoAlojamentosTuristicos/POO_GestaoAlojamentosTuristicos/Business/ClienteService.cs:101-104 | as many clients as `ContarTotal` reports |
| `ServicoClientes.ServicoCliente.ObterPorId` | POO_GestaoAlojamentosTuristicos/POO_GestaoAlojamentosTuristicos/Business/ClienteService.cs:109-112 | not-found("Cliente", id) iff the id is absent; otherwise the first listed client with it |
| `ServicoClientes.ServicoCliente.ObterPorEmail` | POO_GestaoAlojamentosTuristicos/POO_GestaoAlojamentosTuristicos/Business/ClienteService.cs:117-120 | null iff `EmailJaExiste` is false; otherwise a listed client with that e-mail, ignoring case |
| `ServicoClientes.ServicoCliente.BuscarPorNome` | POO_GestaoAlojamentosTuristicos/POO_GestaoAlojamentosTuristicos/Business/ClienteService.cs:125-128 | empty for a blank query; otherwise every listed client whose name contains it, and only those, sorted by name |
| `ServicoClientes.ServicoCliente.ContarTotal` | POO_GestaoAlojamentosTuristicos/POO_GestaoAlojamentosTuristicos/Business/ClienteService.cs:133-136 | the repository's count |
| `ServicoClientes.ServicoCliente.EmailDisponivelSeNaoEncontrado` | POO_GestaoAlojamentosTuristicos/POO_GestaoAlojamentosTuristicos/Business/ClienteService.cs:141-144 | an e-mail is available iff `ObterPorEmail` finds nobody; a blank e-mail is always available |
| `ServicoClientes.ServicoCliente.ObterOrdenadosPorNome` | POO_GestaoAlojamentosTuristicos/POO_GestaoAlojamentosTuristicos/Business/ClienteService.cs:149-154 | a permutation of all clients sorted by name |

## Left out

- The WinForms user interface, `Business/Logger.cs` and `Program.cs` are not part of this model. They are UI, logging to a file with the clock, and start-up.
- The `NotImplementedException` overloads `AdicionarHotel(string, int, int)` and `AdicionarApartamento(string, int, int, bool)` (`Business/AlojamentoService.cs:169-177`) are not modelled. They only throw.
- The JSON text and `File.*` calls are abstracted as a `Ficheiro` holding what the deserializer would make of the text. A record is the entity's public properties. Deserializing a record calls the entity's constructor.
- A failed write is modelled deterministically, as a file that cannot be written. The runtime exception that causes it is named only by type.
- `Path.Combine` is modelled as joining with "/". `AppDomain.CurrentDomain.BaseDirectory` and `Directory.CreateDirectory` become the folder parameter of the service constructors.
- Prices are `real`, not IEEE `double`. Rounding and `NaN` are not modelled.
- `ToString` and `ObterDetalhes` take the `:F2` price formatting as a parameter `formatar`, whose output is not modelled.
- `OrdinalIgnoreCase` is modelled by a per-character case folding. It covers ASCII letters and Latin-1 capitals, not all of Unicode.
- `char.IsDigit` is restricted to the ASCII digits.
- Texto.OrdinalMenorIgual: `OrderBy(c => c.Nome)` uses the current culture's string order, which depends on the machine's culture settings. The model uses ordinal order instead, the UTF-16 code-unit order of `string.CompareOrdinal` (`Texto.OrdinalUtf16`), which is also a total order.
- The e-mail regex is a hand-written predicate rather than a regex engine. It reads `\s` as .NET's white-space class (TAB to CR, NEL and the Unicode separators, the same set as `char.IsWhiteSpace`) and `$` as the .NET end anchor, which also accepts one final `'\n'`.
- Null strings are not modelled. Every string parameter is non-null, and a blank check covers empty and white-space text.
- The two accommodation repositories are one class, `RepositorioAlojamento`, with a `Tipo` (hotel or apartment). `ObterMaisCaros` exists only for the hotel kind.
- `RepositorioAlojamentos.RepositorioAlojamento.ObterPorId`, `GerarProximoId`, `BuscarPorEndereco` and `ObterMaisCaros` are specified through the module functions `ProcurarPorId`, `ProximoIdDe`, `BuscarEndereco` and `MaisCaros`, whose rows are above.
- `ServicoAlojamentos.ServicoAlojamento.ListarHoteis` and `ListarApartamentos` return a repository's list unchanged and have no contract of their own. `ListarTodos` states only the count and which positions are hotels; the list's contents are those of the repositories' `entidades`.
- Returning a copy from `ObterTodos` needs nothing in the model: a Dafny sequence is a value, so the caller cannot alias the repository's list.
- RepositorioAlojamentos.RepositorioAlojamento.ObterTodos: states only the count. The list is returned as it is stored, and the other members state its contents.
- RepositorioClientes.RepositorioCliente.ObterTodos: states only the count, for the same reason.
- ServicoClientes.ServicoCliente.ListarTodos: states only the count, for the same reason.
- Sequencias.Filtrar: its own contract states membership, completeness and length only. Order and multiplicity are stated by the lemma `Sequencias.FiltrarPosicoes`, kept apart so that every caller of `Filtrar` does not carry them.
- RepositorioAlojamentos.ProximoIdDe: its own contract states only the empty case. Freshness of the id is the separate lemma `ProximoIdNovo`, under the hypothesis that no id has reached `int.MaxValue`. At that limit the id wraps, as `Sequencias.ProximoId` states.
- RepositorioClientes.RepositorioCliente.GerarProximoId: states only the empty case. `Sequencias.ProximoId` and `ServicoClientes.IdNovoAcimaDeTodos` state the rest.
- ServicoAlojamentos.ServicoAlojamento.AdicionarHotel: uniqueness of ids is promised only while no id has reached `int.MaxValue`. The same holds for `AdicionarApartamento`.
- `ServicoClientes.ServicoCliente.ObterPorEmail` and `RepositorioClientes.RepositorioCliente.ObterPorEmail` return the first case-insensitive match. This position is stated in `RepositorioClientes.IndiceEmail`.
