/** Similar-ticket retrieval (backend/ml/retrieval.py): a vector index over historical tickets
    plus the table of their fields. The index search, the embedding and its normalisation are
    numeric work and stay abstract; what is modelled is lazy loading and the assembly of results
    from the index hits, including Python's negative row indexing. */
module Retrieval {
  import opened Wrappers

  /** One row of the metadata table saved next to the index. */
  datatype Row = Row(text: string, subject: string, body: string, answer: string, queue: string,
                     priority: string, language: string)

  /** One search result: the hit's similarity score and its row's fields. */
  datatype SimilarTicket = SimilarTicket(score: real, subject: string, body: string, answer: string,
                                         queue: string, priority: string, language: string)

  /** One index hit: a score and a row position. The index pads a short answer with position -1. */
  datatype Hit = Hit(score: real, idx: int)

  /** The loaded vector index: the k hits for a query embedding (normalisation included). */
  type Index = (seq<real>, int) -> seq<Hit>

  /** What load_index finds on disk: each of the two files is present or missing. */
  datatype IndexFiles = IndexFiles(index: Option<Index>, metadata: Option<seq<Row>>)

  const IndexNotFound := "FAISS index not found. Please build index first using scripts/build_index.py"
  const OutOfBounds := "single positional indexer is out-of-bounds"

  /** tickets_df.iloc[idx]: a negative position counts from the end. */
  function RowAt(rows: seq<Row>, idx: int): (r: Result<Row, string>)
    ensures r.Ok? <==> -|rows| <= idx < |rows|
    ensures 0 <= idx < |rows| ==> r == Ok(rows[idx])
    ensures -|rows| <= idx < 0 ==> r == Ok(rows[|rows| + idx])
  {
    if 0 <= idx < |rows| then Ok(rows[idx])
    else if -|rows| <= idx < 0 then Ok(rows[|rows| + idx])
    else Err(OutOfBounds)
  }

  function ResultOf(h: Hit, row: Row): SimilarTicket {
    SimilarTicket(h.score, row.subject, row.body, row.answer, row.queue, row.priority, row.language)
  }

  /** The results the loop over the hits builds: a hit is kept iff idx < len(rows), in hit order;
      a kept hit whose position is out of range even from the end raises. */
  function Assembled(hits: seq<Hit>, rows: seq<Row>): (r: Result<seq<SimilarTicket>, string>)
    ensures r.Ok? ==> |r.value| <= |hits|
  {
    if hits == [] then Ok([])
    else Extend(Assembled(hits[..|hits| - 1], rows), hits[|hits| - 1], rows)
  }

  /** One iteration of the loop: hit h after the results so far. */
  function Extend(prev: Result<seq<SimilarTicket>, string>, h: Hit, rows: seq<Row>): (r: Result<seq<SimilarTicket>, string>)
    ensures r.Ok? ==> prev.Ok? && |r.value| == |prev.value| + (if h.idx < |rows| then 1 else 0)
    ensures r.Ok? ==> r.value[..|prev.value|] == prev.value
  {
    if prev.Err? then prev
    else if h.idx < |rows| then
      (match RowAt(rows, h.idx)
       case Err(e) => Err(e)
       case Ok(row) => Ok(prev.value + [ResultOf(h, row)]))
    else prev
  }

  /** The hits the loop keeps, in order. */
  function Kept(hits: seq<Hit>, n: int): (r: seq<Hit>)
    ensures |r| <= |hits|
    ensures forall h :: h in r <==> h in hits && h.idx < n
  {
    if hits == [] then []
    else Kept(hits[..|hits| - 1], n) + (if hits[|hits| - 1].idx < n then [hits[|hits| - 1]] else [])
  }

  predicate SomeHitOutOfRange(hits: seq<Hit>, n: int) {
    exists j :: 0 <= j < |hits| && hits[j].idx < -n
  }

  /** The result list, stated independently of the loop: the search raises iff some hit's
      position is below -len(rows); otherwise result j is the j-th kept hit's score with its row,
      so results keep the hits' order and are never more than the hits. */
  lemma {:induction false} AssembledIsKeptHits(hits: seq<Hit>, rows: seq<Row>)
    ensures Assembled(hits, rows).Err? <==> SomeHitOutOfRange(hits, |rows|)
    ensures Assembled(hits, rows).Ok? ==>
      var kept := Kept(hits, |rows|);
      && |Assembled(hits, rows).value| == |kept| <= |hits|
      && forall j :: 0 <= j < |kept| ==>
           RowAt(rows, kept[j].idx).Ok?
           && Assembled(hits, rows).value[j] == ResultOf(kept[j], RowAt(rows, kept[j].idx).value)
  {
    if hits != [] {
      var init := hits[..|hits| - 1];
      var h := hits[|hits| - 1];
      AssembledIsKeptHits(init, rows);
      OutOfRangeSplit(hits, |rows|);
    }
  }

  /** A hit below -n sits in the prefix or is the last one. */
  lemma OutOfRangeSplit(hits: seq<Hit>, n: int)
    requires hits != []
    ensures SomeHitOutOfRange(hits, n) <==>
            SomeHitOutOfRange(hits[..|hits| - 1], n) || hits[|hits| - 1].idx < -n
  {
    var init := hits[..|hits| - 1];
    if SomeHitOutOfRange(init, n) {
      var j :| 0 <= j < |init| && init[j].idx < -n;
      assert hits[j] == init[j];
    }
    if SomeHitOutOfRange(hits, n) {
      var j :| 0 <= j < |hits| && hits[j].idx < -n;
      if j < |init| { assert init[j] == hits[j]; }
    }
  }

  /** A padding hit (-1) is not excluded: it brings back the table's last row. */
  lemma PaddingHitReturnsLastRow(rows: seq<Row>, score: real)
    requires |rows| > 0
    ensures Assembled([Hit(score, -1)], rows) == Ok([ResultOf(Hit(score, -1), rows[|rows| - 1])])
  {
    var hs := [Hit(score, -1)];
    assert hs[..0] == [];
    assert Assembled(hs[..0], rows) == Ok([]);
    assert RowAt(rows, -1) == Ok(rows[|rows| - 1]);
    assert Assembled(hs, rows) == Extend(Ok([]), Hit(score, -1), rows);
    var x := ResultOf(Hit(score, -1), rows[|rows| - 1]);
    assert Extend(Ok([]), Hit(score, -1), rows) == Ok([] + [x]);
    assert [] + [x] == [x];
  }

  /** The result-assembly loop of search and search_by_embedding. */
  method AssembleResults(hits: seq<Hit>, rows: seq<Row>) returns (r: Result<seq<SimilarTicket>, string>)
    ensures r == Assembled(hits, rows)
  {
    var results: seq<SimilarTicket> := [];
    var i := 0;
    while i < |hits|
      invariant 0 <= i <= |hits|
      invariant Assembled(hits[..i], rows) == Ok(results)
    {
      var h := hits[i];
      assert hits[..i + 1][..i] == hits[..i];
      if h.idx < |rows| {
        var row := RowAt(rows, h.idx);
        if row.Err? {
          assert Assembled(hits[..i + 1], rows).Err?;
          AssembledErrPropagates(hits, rows, i + 1);
          assert hits[..|hits|] == hits;
          return Err(row.error);
        }
        results := results + [ResultOf(h, row.value)];
      }
      i := i + 1;
    }
    assert hits[..i] == hits;
    r := Ok(results);
  }

  /** Once a prefix of the hits raises, every longer prefix raises with the same error. */
  lemma {:induction false} AssembledErrPropagates(hits: seq<Hit>, rows: seq<Row>, n: nat)
    requires n <= |hits| && Assembled(hits[..n], rows).Err?
    ensures Assembled(hits, rows) == Assembled(hits[..n], rows)
    decreases |hits| - n
  {
    if n < |hits| {
      assert hits[..n + 1][..n] == hits[..n];
      AssembledErrPropagates(hits, rows, n + 1);
    } else {
      assert hits[..n] == hits;
    }
  }

  /** The retriever: its index and metadata table are loaded from disk on first use. */
  class TicketRetriever {
    var index: Option<Index>
    var ticketsTable: Option<seq<Row>>
    var indexed: bool

    ghost predicate Valid()
      reads this
    {
      indexed ==> index.Some? && ticketsTable.Some?
    }

    constructor ()
      ensures Valid() && !indexed && index.None? && ticketsTable.None?
    {
      index, ticketsTable, indexed := None, None, false;
    }

    /** load_index: raises when either file is missing; otherwise reads both and sets indexed. */
    method LoadIndex(files: IndexFiles) returns (r: Result<(), string>)
      requires Valid()
      modifies this
      ensures Valid()
      ensures r.Err? <==> files.index.None? || files.metadata.None?
      ensures r.Err? ==> r.error == IndexNotFound && index == old(index)
                         && ticketsTable == old(ticketsTable) && indexed == old(indexed)
      ensures r.Ok? ==> indexed && index == files.index && ticketsTable == files.metadata
    {
      if files.index.None? || files.metadata.None? {
        return Err(IndexNotFound);
      }
      index := files.index;
      ticketsTable := files.metadata;
      indexed := true;
      r := Ok(());
    }

    /** The index and table a search uses: the ones loaded, or the ones on disk when the
        retriever has not been indexed yet. */
    ghost function SearchSource(files: IndexFiles): Option<(Index, seq<Row>)>
      reads this
      requires Valid()
    {
      if indexed then Some((index.value, ticketsTable.value))
      else if files.index.Some? && files.metadata.Some? then Some((files.index.value, files.metadata.value))
      else None
    }

    /** The result search_by_embedding gives in the current state, with these files on disk. */
    ghost function Searched(query: seq<real>, k: int, files: IndexFiles): Result<seq<SimilarTicket>, string>
      reads this
      requires Valid()
    {
      match SearchSource(files)
      case None => Err(IndexNotFound)
      case Some((ix, rows)) => Assembled(ix(query, k), rows)
    }

    /** search_by_embedding(query, k): loads the index first when needed, then assembles the
        results of the index's k hits. */
    method SearchByEmbedding(query: seq<real>, k: int, files: IndexFiles)
      returns (r: Result<seq<SimilarTicket>, string>)
      requires Valid()
      modifies this
      ensures Valid()
      ensures old(indexed) ==> index == old(index) && ticketsTable == old(ticketsTable) && indexed
      ensures r == old(Searched(query, k, files))
      ensures old(SearchSource(files)).None? ==> !indexed
      ensures old(SearchSource(files)).Some? ==>
        var (ix, rows) := old(SearchSource(files)).value;
        indexed && index == Some(ix) && ticketsTable == Some(rows)
    {
      if !indexed {
        var loaded := LoadIndex(files);
        if loaded.Err? {
          return Err(loaded.error);
        }
      }
      var hits := index.value(query, k);
      r := AssembleResults(hits, ticketsTable.value);
    }

    /** search(query_text, k): as search_by_embedding, on the embedding of the query text. */
    method Search(queryText: string, k: int, files: IndexFiles, embed: string -> seq<real>)
      returns (r: Result<seq<SimilarTicket>, string>)
      requires Valid()
      modifies this
      ensures Valid()
      ensures old(indexed) ==> index == old(index) && ticketsTable == old(ticketsTable) && indexed
      ensures old(SearchSource(files)).None? ==> r == Err(IndexNotFound) && !indexed
      ensures old(SearchSource(files)).Some? ==>
        var (ix, rows) := old(SearchSource(files)).value;
        indexed && index == Some(ix) && ticketsTable == Some(rows)
        && r == Assembled(ix(embed(queryText), k), rows)
    {
      if !indexed {
        var loaded := LoadIndex(files);
        if loaded.Err? {
          return Err(loaded.error);
        }
      }
      var queryEmbedding := embed(queryText);
      var hits := index.value(queryEmbedding, k);
      r := AssembleResults(hits, ticketsTable.value);
    }
  }
}
