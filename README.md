# Imóveis request handlers

A model of the request handlers of a small Flask service over one MySQL table
of real-estate records ("imóveis"). Every handler opens a connection and
answers with a JSON body and a status code. Each read handler runs one query
and reshapes the fetched 9-tuples into nine-key records. The update handler
runs an existence SELECT, a `SHOW COLUMNS` query whose result it discards, and
the UPDATE; it reshapes nothing. The delete handler runs only the DELETE and
fetches nothing. The model starts where `connect_db()` has
answered: each handler gets whether a connection was obtained and the rows that
`fetchall()` returned. The rows are arbitrary input, because the SQL engine is
not modelled. The write handlers also return the statement they issue, as a
`Command` value (`Delete(id)` or `Update(coluna, alteracao, id)`).

- `imovel.dfy`, module `Imovel`: the positional row (`Row`, a 9-tuple), the
  nine-key `Record`, the row-to-record mapping `ToRecord` with its inverse
  `FromRecord`, the whole-fetch mapping `Records`, and the in-memory filters
  (`Filter`, `Keeps`, `Select`) with their lemmas. These cover order, the
  subsequence property, multiplicities, emptiness, and one match for a unique id.
- `servidor.dfy`, module `Servidor`: the six handlers as methods. The four read
  handlers keep the source's `for`/`append` loop, and each loop invariant ties
  the list built so far to `Records`/`Select` over the rows seen so far. The
  update and delete handlers have no loop, in the source or here. Every method
  ends through the source's chain of early returns.
- `cenarios.dfy`, module `Cenarios`: the scenarios of `test_api.py`, plus the
  second-404 path of the by-id handler, stated as methods that call the
  handlers on the mocked fetch. The tests request paths
  ("/", "/1", "/casa", "/delete/1") that the route table does not serve, so
  the scenarios call the handlers directly.

Facts about the code that the model keeps as they are:
- The update handler does not validate the column name, and it has no `400`
  answer.
- There is no create route.
- Most queries bind their values as `%s` parameters: the DELETE, the existence
  SELECT of the update, the updated value and the by-cidade query. Three
  things are interpolated into the query text instead: the by-id query, the
  by-tipo query and the column name of the UPDATE.
- The by-id handler returns every row that survives its filter, not a list of
  exactly one.

## Model

| member | source | states |
|---|---|---|
| `Imovel.ToRecord` | servidor.py:61-71 | the record can be read back into exactly the row it came from: no position is dropped or transformed |
| `Imovel.RecordFieldPositions` | servidor.py:61-71 | key k of the record holds tuple position k, in the order id, logradouro, tipo_logradouro, bairro, cidade, cep, tipo, valor, data_aquisicao |
| `Imovel.RecordRoundTrip` | servidor.py:61-71 | every record is the image of the row built from its keys, so the mapping is a bijection |
| `Imovel.Records` | servidor.py:59-72 | one record per fetched row, record k being the mapping of row k |
| `Imovel.RecordsAppend` | servidor.py:59-72 | reshaping a concatenated fetch gives the concatenated records, in order |
| `Imovel.RecordsInjective` | servidor.py:59-72 | different fetches give different record lists |
| `Imovel.Select` | servidor.py:120-121 | the kept rows are never more than the fetched ones, and a row is kept exactly when it was fetched and passes the filter |
| `Imovel.SelectAppend` | servidor.py:166-179 | filtering distributes over concatenation, so kept rows stay in fetch order |
| `Imovel.SelectIsSubsequence` | servidor.py:119-133 | the kept rows are a subsequence of the fetch |
| `Imovel.SelectCounts` | servidor.py:119-133 | a passing row is kept as many times as it was fetched; a failing row never |
| `Imovel.SelectEmptyIff` | servidor.py:134-136 | nothing survives a filter if and only if no fetched row passes it |
| `Imovel.SelectAllKept` | servidor.py:165-179 | a filter that every row passes returns the fetch unchanged |
| `Imovel.UniqueIdSelectsOne` | servidor.py:119-133 | when ids are distinct, filtering on the id of a fetched row yields exactly that row |
| `Imovel.IdRecordsMatch` | servidor.py:121 | every record of the by-id filter carries the requested id |
| `Imovel.TipoRecordsMatch` | servidor.py:167 | every record of the by-tipo filter has exactly the requested tipo |
| `Servidor.GetImoveis` | servidor.py:36-74 | 500 "Erro ao conectar ao banco de dados" without a connection; 404 "Nenhum imóvel encontrado" on an empty fetch; otherwise 200 with the records of all rows in fetch order |
| `Servidor.DeleteImovel` | servidor.py:77-99 | 500 and nothing issued without a connection; otherwise exactly one `Delete(id)` and 200 "Imóvel removido com sucesso.", with no existence check |
| `Servidor.GetImoveisId` | servidor.py:102-139 | with a connection required: 404 "Nenhum imóvel encontrado" on an empty fetch; 404 "imóvel não encontrado" when no fetched row has position 0 equal to id; otherwise 200 with the records of exactly the matching rows, in fetch order |
| `Servidor.GetImoveisTipo` | servidor.py:142-185 | 500 without a connection; 404 "Nenhum imóvel encontrado" on an empty fetch; 404 "imóvel não encontrado" when no row has position 6 exactly equal to tipo; otherwise 200 with the records of exactly those rows, in fetch order |
| `Servidor.AtualizaImovel` | servidor.py:188-230 | 500 and nothing issued without a connection; 404 "Nenhum imóvel encontrado" and nothing issued on an empty existence fetch; otherwise exactly one `Update(coluna, alteracao, id)`, unvalidated, and 200 "Imóvel atualizado com sucesso." |
| `Servidor.GetImoveisCidade` | servidor.py:233-275 | 500 without a connection; 404 "Nenhum imóvel encontrado" on an empty fetch; otherwise always 200 with the records of every fetched row, unfiltered; the second 404 is unreachable |
| `Cenarios.FixtureRows` | test_api.py:22-25 | the mocked fetch has two rows with distinct ids |
| `Cenarios.ListAllScenario` | test_api.py:12-44 | listing the two mocked rows gives 200 with both expected records, in order |
| `Cenarios.DeleteScenario` | test_api.py:47-79 | deleting id 1 gives 200 "Imóvel removido com sucesso." and issues `Delete(1)` |
| `Cenarios.ByIdScenario` | test_api.py:88-121 | by id 1 over the two mocked rows gives 200 with the one expected record |
| `Cenarios.ByTipoScenario` | test_api.py:130-161 | by tipo "casa" gives the "casa" record only; "casa em condominio" does not match |
| `Cenarios.MissingIdScenario` | servidor.py:134-136 | an id no fetched row carries gives 404 "imóvel não encontrado" on a non-empty fetch |

## Left out

- The Flask application, its route decorators and `app.run` are not modelled. The handlers take their path parameters as plain arguments.
- `connect_db`, the `mysql.connector` library and the configuration read from the environment are not modelled. They are I/O and a foreign library. A handler only sees whether a connection was obtained.
- The SQL text is not modelled, nor whether it is interpolated or parameterised. What the engine filters, updates and deletes is not modelled either. Fetched rows are arbitrary input, and the write handlers only report the `Command` they issue. So re-reading after an update or delete is not modelled.
- The `SHOW COLUMNS` query of the update handler is not modelled. Its result is discarded and the check that used it is commented out.
- Closing cursors and connections is not modelled, including the leaks on the early returns. It is resource plumbing with no observable result in the response.
- `conn.commit()` after the writes is not modelled. The issued command stands for the committed statement.
- Exceptions raised by the database during a query are not modelled. The code does not handle them.
- Servidor.GetImoveisId: requires a connection. The handler has no connection check, so without one `conn.cursor()` raises and Flask answers its generic 500 page. That path is outside the model.
- `Record.valor` is an unbounded integer. The tests use integer values; a decimal column is not modelled.
