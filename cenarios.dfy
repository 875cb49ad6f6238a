/** The scenarios of test_api.py, plus the second-404 path of the by-id
    handler, stated against the handlers themselves.
    The tests reach the handlers through paths ("/", "/1", "/casa",
    "/delete/1") that the route table does not have, so here each scenario
    calls its handler directly, with the mocked fetch as input. */
module Cenarios {
  import opened Imovel
  import opened Servidor

  /** The two rows the tests' mocked cursor returns. */
  function FixtureRows(): (rows: seq<Row>)
    ensures |rows| == 2 && DistinctIds(rows)
  {
    [ (1, "Vereador", "Rua", "Centro", "Bofete", "18590-000", "casa", 50000, "2025-03-11"),
      (2, "Miguel Damha", "Avenida", "Damha", "São José do Rio Preto", "15061-800",
       "casa em condominio", 50000, "2025-03-11") ]
  }

  /** The records the tests expect, written out key by key. */
  const Casa := Record(1, "Vereador", "Rua", "Centro", "Bofete", "18590-000", "casa", 50000, "2025-03-11")
  const Condominio := Record(2, "Miguel Damha", "Avenida", "Damha", "São José do Rio Preto",
    "15061-800", "casa em condominio", 50000, "2025-03-11")

  /** test_get_imoveis: both rows come back, in fetch order. */
  method ListAllScenario() returns (resp: Response)
    ensures resp == Response(200, Imoveis([Casa, Condominio]))
  {
    var rows := FixtureRows();
    assert Records(rows) == [Casa, Condominio];
    resp := GetImoveis(true, rows);
  }

  /** test_delete_imovel: removing id 1 succeeds and issues one DELETE. */
  method DeleteScenario() returns (resp: Response, issued: seq<Command>)
    ensures resp == Response(200, Msg("Imóvel removido com sucesso."))
    ensures issued == [Delete(1)]
  {
    resp, issued := DeleteImovel(true, 1);
  }

  /** test_get_imoveis_id: of the two fetched rows only the one with id 1 survives. */
  method ByIdScenario() returns (resp: Response)
    ensures resp == Response(200, Imoveis([Casa]))
  {
    var rows := FixtureRows();
    UniqueIdSelectsOne(rows, 0);
    assert Records([rows[0]]) == [Casa];
    resp := GetImoveisId(true, 1, rows);
  }

  /** test_get_imoveis_tipo: "casa" does not match "casa em condominio". */
  method ByTipoScenario() returns (resp: Response)
    ensures resp == Response(200, Imoveis([Casa]))
  {
    var rows := FixtureRows();
    assert Select(rows, TipoEquals("casa")) == [rows[0]] by {
      assert rows[1].6 != "casa" by {
        assert |rows[1].6| != |"casa"|;
      }
      assert rows[1..][1..] == [];
    }
    assert Records([rows[0]]) == [Casa];
    resp := GetImoveisTipo(true, "casa", rows);
  }

  /** An id that no fetched row carries: the in-memory filter empties a
      non-empty fetch, and the second 404 fires. */
  method MissingIdScenario() returns (resp: Response)
    ensures resp == Response(404, Err("imóvel não encontrado"))
  {
    var rows := FixtureRows();
    SelectEmptyIff(rows, IdEquals(3));
    resp := GetImoveisId(true, 3, rows);
  }
}
