/** The request handlers of servidor.py, from the moment connect_db() has
    answered. A handler receives whether a connection was obtained and the
    rows that fetchall() returned (arbitrary: the SQL engine is not modelled),
    and leaves through a chain of early returns. The four read handlers
    build their list of records with a loop; the write handlers also report
    the statement they issue. */
module Servidor {
  import opened Imovel

  /** The fixed messages of the handlers. */
  const ConnectionFailed := "Erro ao conectar ao banco de dados"
  const NoneFound := "Nenhum imóvel encontrado"
  const NotFound := "imóvel não encontrado"
  const Updated := "Imóvel atualizado com sucesso."
  const Removed := "Imóvel removido com sucesso."

  /** The JSON body: {"erro": ...}, {"imovel": [...]} or {"mensagem": ...}. */
  datatype Body = Err(erro: string) | Imoveis(imovel: seq<Record>) | Msg(mensagem: string)

  /** What a handler returns: the body and the HTTP status code. */
  datatype Response = Response(status: int, body: Body)

  /** A write statement a handler sends to the database. The column name of
      an update is taken from the request as it is, without validation. */
  datatype Command =
    | Delete(id: int)
    | Update(coluna: string, alteracao: string, id: int)

  /** GET /imoveis: every fetched row, reshaped, in fetch order. */
  method GetImoveis(connected: bool, results: seq<Row>) returns (resp: Response)
    ensures !connected ==> resp == Response(500, Err(ConnectionFailed))
    ensures connected && results == [] ==> resp == Response(404, Err(NoneFound))
    ensures connected && results != [] ==> resp == Response(200, Imoveis(Records(results)))
  {
    if !connected {
      return Response(500, Err(ConnectionFailed));
    }
    if results == [] {
      return Response(404, Err(NoneFound));
    }
    var imoveis: seq<Record> := [];
    for i := 0 to |results|
      invariant imoveis == Records(results[..i])
    {
      assert results[..i + 1] == results[..i] + [results[i]];
      RecordsSnoc(results[..i], results[i]);
      imoveis := imoveis + [ToRecord(results[i])];
    }
    assert results[..|results|] == results;
    return Response(200, Imoveis(imoveis));
  }

  /** DELETE /imoveis/delete/<id>: the DELETE is issued with no existence
      check, and success is reported whatever it removed. */
  method DeleteImovel(connected: bool, id: int) returns (resp: Response, issued: seq<Command>)
    ensures !connected ==> resp == Response(500, Err(ConnectionFailed)) && issued == []
    ensures connected ==> resp == Response(200, Msg(Removed)) && issued == [Delete(id)]
  {
    if !connected {
      return Response(500, Err(ConnectionFailed)), [];
    }
    issued := [Delete(id)];
    resp := Response(200, Msg(Removed));
  }

  /** GET /imoveis/<id>: the fetched rows are filtered a second time, in
      memory, on tuple position 0. This handler does not check the
      connection: with none, conn.cursor() fails before any response is built,
      so a connection is required of the caller. The parameter carries no
      information; it is kept only so that all handlers have the same
      signature. */
  method GetImoveisId(connected: bool, id: int, results: seq<Row>) returns (resp: Response)
    requires connected
    ensures results == [] ==> resp == Response(404, Err(NoneFound))
    ensures results != [] && Select(results, IdEquals(id)) == [] ==>
      resp == Response(404, Err(NotFound))
    ensures Select(results, IdEquals(id)) != [] ==>
      resp == Response(200, Imoveis(Records(Select(results, IdEquals(id)))))
  {
    if results == [] {
      return Response(404, Err(NoneFound));
    }
    var imoveis: seq<Record> := [];
    for i := 0 to |results|
      invariant imoveis == Records(Select(results[..i], IdEquals(id)))
    {
      assert results[..i + 1] == results[..i] + [results[i]];
      SelectedRecordsSnoc(results[..i], results[i], IdEquals(id));
      if results[i].0 == id {
        imoveis := imoveis + [ToRecord(results[i])];
      }
    }
    assert results[..|results|] == results;
    if imoveis == [] {
      return Response(404, Err(NotFound));
    }
    return Response(200, Imoveis(imoveis));
  }

  /** GET /imoveis/tipo/<tipo>: the fetched rows are filtered a second time,
      in memory, by exact equality of tuple position 6. */
  method GetImoveisTipo(connected: bool, tipo: string, results: seq<Row>) returns (resp: Response)
    ensures !connected ==> resp == Response(500, Err(ConnectionFailed))
    ensures connected && results == [] ==> resp == Response(404, Err(NoneFound))
    ensures connected && results != [] && Select(results, TipoEquals(tipo)) == [] ==>
      resp == Response(404, Err(NotFound))
    ensures connected && Select(results, TipoEquals(tipo)) != [] ==>
      resp == Response(200, Imoveis(Records(Select(results, TipoEquals(tipo)))))
  {
    if !connected {
      return Response(500, Err(ConnectionFailed));
    }
    if results == [] {
      return Response(404, Err(NoneFound));
    }
    var imoveis: seq<Record> := [];
    for i := 0 to |results|
      invariant imoveis == Records(Select(results[..i], TipoEquals(tipo)))
    {
      assert results[..i + 1] == results[..i] + [results[i]];
      SelectedRecordsSnoc(results[..i], results[i], TipoEquals(tipo));
      if results[i].6 == tipo {
        imoveis := imoveis + [ToRecord(results[i])];
      }
    }
    assert results[..|results|] == results;
    if imoveis == [] {
      return Response(404, Err(NotFound));
    }
    return Response(200, Imoveis(imoveis));
  }

  /** PUT /imoveis/atualiza/<id>/<coluna>/<alteracao>: the existence query
      decides between 404 and issuing exactly one UPDATE. */
  method AtualizaImovel(connected: bool, id: int, coluna: string, alteracao: string, results: seq<Row>)
    returns (resp: Response, issued: seq<Command>)
    ensures !connected ==> resp == Response(500, Err(ConnectionFailed)) && issued == []
    ensures connected && results == [] ==> resp == Response(404, Err(NoneFound)) && issued == []
    ensures connected && results != [] ==>
      resp == Response(200, Msg(Updated)) && issued == [Update(coluna, alteracao, id)]
  {
    if !connected {
      return Response(500, Err(ConnectionFailed)), [];
    }
    if results == [] {
      return Response(404, Err(NoneFound)), [];
    }
    issued := [Update(coluna, alteracao, id)];
    resp := Response(200, Msg(Updated));
  }

  /** GET /imoveis/cidade/<cidade>: the city is only a query parameter; no
      in-memory filter follows, so every fetched row is returned. The second
      emptiness check of the handler can no longer fire. */
  method GetImoveisCidade(connected: bool, cidade: string, results: seq<Row>) returns (resp: Response)
    ensures !connected ==> resp == Response(500, Err(ConnectionFailed))
    ensures connected && results == [] ==> resp == Response(404, Err(NoneFound))
    ensures connected && results != [] ==> resp == Response(200, Imoveis(Records(results)))
  {
    if !connected {
      return Response(500, Err(ConnectionFailed));
    }
    if results == [] {
      return Response(404, Err(NoneFound));
    }
    var imoveis: seq<Record> := [];
    for i := 0 to |results|
      invariant imoveis == Records(results[..i])
    {
      assert results[..i + 1] == results[..i] + [results[i]];
      RecordsSnoc(results[..i], results[i]);
      imoveis := imoveis + [ToRecord(results[i])];
    }
    assert results[..|results|] == results;
    if imoveis == [] {
      // one record per fetched row, and the fetch was not empty
      assert false;
      return Response(404, Err(NotFound));
    }
    return Response(200, Imoveis(imoveis));
  }
}
