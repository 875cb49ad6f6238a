/** The property record ("imóvel") as the request handlers of servidor.py see
    it: a positional row returned by fetchall(), the fixed nine-key record each
    row is reshaped into, and the in-memory filters some handlers apply to the
    fetched rows before reshaping them. */
module Imovel {

  /** One fetched row: the 9-tuple (id, logradouro, tipo_logradouro, bairro,
      cidade, cep, tipo, valor, data_aquisicao). The handlers address it by
      position only, never by column name. */
  type Row = (int, string, string, string, string, string, string, int, string)

  /** The record a handler answers with for one row. Its fields stand for the
      nine JSON keys "id", "logradouro", "tipo_logradouro", "bairro", "cidade",
      "cep", "tipo", "valor" and "data_aquisicao". */
  datatype Record = Record(
    id: int,
    logradouro: string,
    tipoLogradouro: string,
    bairro: string,
    cidade: string,
    cep: string,
    tipo: string,
    valor: int,
    dataAquisicao: string)

  /** The per-row dict literal of every handler: position k of the tuple
      becomes the k-th key, unchanged. Nothing is lost: the row can be read
      back from the record. */
  function ToRecord(row: Row): (r: Record)
    ensures FromRecord(r) == row
  {
    Record(row.0, row.1, row.2, row.3, row.4, row.5, row.6, row.7, row.8)
  }

  /** The row a record stands for, with the keys back in column order. */
  function FromRecord(rec: Record): (row: Row)
  {
    (rec.id, rec.logradouro, rec.tipoLogradouro, rec.bairro, rec.cidade,
     rec.cep, rec.tipo, rec.valor, rec.dataAquisicao)
  }

  /** The positional contract: key number k takes tuple position k. */
  lemma RecordFieldPositions(row: Row)
    ensures ToRecord(row).id == row.0
    ensures ToRecord(row).logradouro == row.1
    ensures ToRecord(row).tipoLogradouro == row.2
    ensures ToRecord(row).bairro == row.3
    ensures ToRecord(row).cidade == row.4
    ensures ToRecord(row).cep == row.5
    ensures ToRecord(row).tipo == row.6
    ensures ToRecord(row).valor == row.7
    ensures ToRecord(row).dataAquisicao == row.8
  {
  }

  /** Every record is the image of exactly one row. */
  lemma RecordRoundTrip(rec: Record)
    ensures ToRecord(FromRecord(rec)) == rec
  {
  }

  /** Reshaping a whole fetch: one record per row, in fetch order. */
  function Records(rows: seq<Row>): (recs: seq<Record>)
    ensures |recs| == |rows|
    ensures forall k :: 0 <= k < |rows| ==> recs[k] == ToRecord(rows[k])
  {
    if rows == [] then [] else [ToRecord(rows[0])] + Records(rows[1..])
  }

  /** Reshaping distributes over concatenation of fetches. */
  lemma RecordsAppend(a: seq<Row>, b: seq<Row>)
    ensures Records(a + b) == Records(a) + Records(b)
  {
  }

  /** Reshaping one more fetched row appends its record. */
  lemma RecordsSnoc(rows: seq<Row>, row: Row)
    ensures Records(rows + [row]) == Records(rows) + [ToRecord(row)]
  {
  }

  /** The records can be read back into the very rows they came from. */
  lemma RecordsInjective(a: seq<Row>, b: seq<Row>)
    requires Records(a) == Records(b)
    ensures a == b
  {
  }

  /** The second, in-memory filters of the handlers: equality on tuple
      position 0 (the id) or exact, case-sensitive equality on position 6
      (the tipo). */
  datatype Filter = IdEquals(id: int) | TipoEquals(tipo: string)

  predicate Keeps(f: Filter, row: Row)
  {
    match f
    case IdEquals(id) => row.0 == id
    case TipoEquals(tipo) => row.6 == tipo
  }

  /** The rows a filter keeps, in fetch order. */
  function Select(rows: seq<Row>, f: Filter): (kept: seq<Row>)
    ensures |kept| <= |rows|
    ensures forall row :: row in kept <==> row in rows && Keeps(f, row)
  {
    if rows == [] then []
    else (if Keeps(f, rows[0]) then [rows[0]] else []) + Select(rows[1..], f)
  }

  /** Filtering distributes over concatenation: the kept rows of an earlier
      part of the fetch come before those of a later part. */
  lemma {:induction false} SelectAppend(a: seq<Row>, b: seq<Row>, f: Filter)
    ensures Select(a + b, f) == Select(a, f) + Select(b, f)
  {
    if a == [] {
      assert a + b == b;
    } else {
      assert (a + b)[0] == a[0];
      assert (a + b)[1..] == a[1..] + b;
      SelectAppend(a[1..], b, f);
    }
  }

  /** Filtering and reshaping one more fetched row appends its record
      exactly when the filter keeps the row. */
  lemma SelectedRecordsSnoc(rows: seq<Row>, row: Row, f: Filter)
    ensures Records(Select(rows + [row], f)) ==
      Records(Select(rows, f)) + (if Keeps(f, row) then [ToRecord(row)] else [])
  {
    SelectAppend(rows, [row], f);
    assert Select([row], f) == if Keeps(f, row) then [row] else [];
    RecordsAppend(Select(rows, f), Select([row], f));
  }

  /** a is obtained from b by deleting elements, keeping the order of the rest. */
  predicate IsSubsequence(a: seq<Row>, b: seq<Row>)
    decreases |b|
  {
    if a == [] then true
    else if b == [] then false
    else if a[0] == b[0] then IsSubsequence(a[1..], b[1..])
    else IsSubsequence(a, b[1..])
  }

  /** Dropping an element at the front of the larger sequence keeps a
      subsequence relation that holds for its tail. */
  lemma {:induction false} SubsequenceOfCons(a: seq<Row>, x: Row, b: seq<Row>)
    requires IsSubsequence(a, b)
    ensures IsSubsequence(a, [x] + b)
    decreases |b|, 1
  {
    assert ([x] + b)[1..] == b;
    if a != [] && a[0] == x {
      SubsequenceOfTail(a, b);
    }
  }

  /** A subsequence stays a subsequence when its first element is dropped. */
  lemma {:induction false} SubsequenceOfTail(a: seq<Row>, b: seq<Row>)
    requires a != [] && IsSubsequence(a, b)
    ensures IsSubsequence(a[1..], b)
    decreases |b|, 0
  {
    assert [b[0]] + b[1..] == b;
    if a[0] != b[0] {
      SubsequenceOfTail(a, b[1..]);
    }
    SubsequenceOfCons(a[1..], b[0], b[1..]);
  }

  /** The kept rows are a subsequence of the fetch: same relative order,
      nothing invented, nothing repeated. */
  lemma {:induction false} SelectIsSubsequence(rows: seq<Row>, f: Filter)
    ensures IsSubsequence(Select(rows, f), rows)
  {
    if rows != [] {
      SelectIsSubsequence(rows[1..], f);
      var rest := Select(rows[1..], f);
      if Keeps(f, rows[0]) {
        assert Select(rows, f) == [rows[0]] + rest;
        assert ([rows[0]] + rest)[1..] == rest;
      } else {
        assert Select(rows, f) == rest;
        SubsequenceOfCons(rest, rows[0], rows[1..]);
        assert [rows[0]] + rows[1..] == rows;
      }
    }
  }

  /** Every kept row occurs as often as in the fetch; every other row not at all. */
  lemma {:induction false} SelectCounts(rows: seq<Row>, f: Filter)
    ensures forall row ::
      multiset(Select(rows, f))[row] == (if Keeps(f, row) then multiset(rows)[row] else 0)
  {
    if rows != [] {
      SelectCounts(rows[1..], f);
      assert rows == [rows[0]] + rows[1..];
      assert multiset(rows) == multiset([rows[0]]) + multiset(rows[1..]);
      var head := if Keeps(f, rows[0]) then [rows[0]] else [];
      assert multiset(Select(rows, f)) == multiset(head) + multiset(Select(rows[1..], f));
    }
  }

  /** Nothing survives a filter exactly when no fetched row satisfies it. */
  lemma SelectEmptyIff(rows: seq<Row>, f: Filter)
    ensures Select(rows, f) == [] <==> forall k :: 0 <= k < |rows| ==> !Keeps(f, rows[k])
  {
  }

  /** A filter every fetched row satisfies keeps the fetch as it is. */
  lemma {:induction false} SelectAllKept(rows: seq<Row>, f: Filter)
    requires forall k :: 0 <= k < |rows| ==> Keeps(f, rows[k])
    ensures Select(rows, f) == rows
  {
    if rows != [] {
      SelectAllKept(rows[1..], f);
    }
  }

  /** The id column holds no value twice. */
  predicate DistinctIds(rows: seq<Row>)
  {
    forall i, j :: 0 <= i < |rows| && 0 <= j < |rows| && rows[i].0 == rows[j].0 ==> i == j
  }

  /** With distinct ids, filtering on the id of a fetched row yields that row alone. */
  lemma {:induction false} UniqueIdSelectsOne(rows: seq<Row>, i: nat)
    requires i < |rows|
    requires DistinctIds(rows)
    ensures Select(rows, IdEquals(rows[i].0)) == [rows[i]]
  {
    var f := IdEquals(rows[i].0);
    var tail := rows[1..];
    assert DistinctIds(tail) by {
      forall a, b | 0 <= a < |tail| && 0 <= b < |tail| && tail[a].0 == tail[b].0
        ensures a == b
      {
        assert rows[a + 1].0 == rows[b + 1].0;
      }
    }
    if i == 0 {
      forall k | 0 <= k < |tail|
        ensures !Keeps(f, tail[k])
      {
        assert tail[k] == rows[k + 1];
      }
      SelectEmptyIff(tail, f);
    } else {
      assert rows[i] == tail[i - 1];
      assert rows[0].0 != rows[i].0;
      UniqueIdSelectsOne(tail, i - 1);
    }
  }

  /** Every record a by-id filter yields carries the requested id. */
  lemma IdRecordsMatch(rows: seq<Row>, id: int)
    ensures forall rec :: rec in Records(Select(rows, IdEquals(id))) ==> rec.id == id
  {
  }

  /** Every record a by-tipo filter yields has exactly the requested tipo. */
  lemma TipoRecordsMatch(rows: seq<Row>, tipo: string)
    ensures forall rec :: rec in Records(Select(rows, TipoEquals(tipo))) ==> rec.tipo == tipo
  {
  }
}
