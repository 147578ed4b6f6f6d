/** The elasticsearch top-term-count tile: parses its configuration through
    its bivariate-binning and top-terms parts, and creates one tile by
    connecting, composing the caller's query with the tile's spatial clause,
    asking for the "top-terms" aggregation only, and encoding the term
    buckets as a term -> 32-bit count map.

    The collaborators whose code lies outside this file (the search client,
    the bivariate and top-terms parts, the root-query builder and the JSON
    encoder) are the fields of `Collaborators`: any total functions of the
    stated types. */
module Elastic {
  import opened Values
  import opened Search

  /** Raw tile parameters. */
  type Params = map<string, Json>

  /** The settings the bivariate-binning part keeps after parsing. */
  datatype BivariateState = BivariateState(settings: Params)

  /** The settings the top-terms part keeps after parsing. */
  datatype TopTermsState = TopTermsState(settings: Params)

  /** A quadtree tile coordinate. */
  datatype TileCoord = TileCoord(z: uint32, x: uint32, y: uint32)

  /** One term bucket of the aggregation response; only its document count
      reaches the tile. */
  datatype Bucket = Bucket(key: Json, docCount: int64)

  /** A search response: the raw aggregations, by name. */
  datatype SearchResult = SearchResult(aggregations: map<string, Json>)

  /** The collaborators' behaviour. A parse step returns the part's new
      settings and its `error`; the others return a value or an error. */
  datatype Collaborators = Collaborators(
    bivariateParse: (BivariateState, Params) -> (BivariateState, Option<Error>),
    topTermsParse: (TopTermsState, Params) -> (TopTermsState, Option<Error>),
    newClient: (string, string) -> Result<Client>,
    createQuery: Json -> Result<seq<Clause>>,
    tileQuery: (BivariateState, TileCoord) -> Clause,
    getAggs: TopTermsState -> map<string, Aggregation>,
    send: (Client, SearchRequest) -> Result<SearchResult>,
    getTerms: (TopTermsState, map<string, Json>) -> Result<map<string, Bucket>>,
    marshal: map<string, uint32> -> Result<seq<byte>>)

  /** The name under which the aggregation is requested and read back. */
  const TOP_TERMS: string := "top-terms"

  /** The fallible calls `Create` makes, in the order it makes them, with
      the arguments it passes. */
  datatype Call =
    | NewClient(host: string, port: string)
    | CreateQuery(query: Json)
    | Do(client: Client, request: SearchRequest)
    | GetTerms(topTerms: TopTermsState, aggregations: map<string, Json>)
    | Marshal(counts: map<string, uint32>)

  /** Position of a call in the pipeline. */
  function Stage(c: Call): nat
  {
    match c
    case NewClient(_, _) => 0
    case CreateQuery(_) => 1
    case Do(_, _) => 2
    case GetTerms(_, _) => 3
    case Marshal(_) => 4
  }

  /** The error the collaborator answers the call with, if any. */
  function CallError(env: Collaborators, c: Call): Option<Error>
  {
    match c
    case NewClient(h, p) => env.newClient(h, p).Err()
    case CreateQuery(q) => env.createQuery(q).Err()
    case Do(cl, req) => env.send(cl, req).Err()
    case GetTerms(tt, aggs) => env.getTerms(tt, aggs).Err()
    case Marshal(counts) => env.marshal(counts).Err()
  }

  /** The outcome of one tile creation together with the calls it made. */
  datatype Run = Run(result: Result<seq<byte>>, calls: seq<Call>)

  /** The encoding projection: each term keeps only its bucket's document
      count, converted as Go's `uint32(...)` does. */
  function CountsOf(terms: map<string, Bucket>): (counts: map<string, uint32>)
    ensures counts.Keys == terms.Keys
    ensures forall t :: t in terms ==> counts[t] == ToUint32(terms[t].docCount)
  {
    map t | t in terms :: ToUint32(terms[t].docCount)
  }

  /** Reference definition of tile creation, step by step with early returns.
      Its contract is the fail-fast discipline: the calls made are a prefix of
      the pipeline's five stages, every call but the last succeeded, and the
      outcome is the last call's outcome. */
  function Generate(env: Collaborators, host: string, port: string,
                    bivariate: BivariateState, topTerms: TopTermsState,
                    uri: string, coord: TileCoord, query: Json): (run: Run)
    ensures 1 <= |run.calls| <= 5
    ensures run.calls[0] == NewClient(host, port)
    ensures |run.calls| >= 2 ==> run.calls[1] == CreateQuery(query)
    ensures |run.calls| >= 4 ==>
              && run.calls[2].Do?
              && env.send(run.calls[2].client, run.calls[2].request).Success?
              && run.calls[3] == GetTerms(topTerms, env.send(run.calls[2].client, run.calls[2].request).value.aggregations)
    ensures forall i :: 0 <= i < |run.calls| ==> Stage(run.calls[i]) == i
    ensures forall i :: 0 <= i < |run.calls| - 1 ==> CallError(env, run.calls[i]).None?
    ensures run.result.Err() == CallError(env, run.calls[|run.calls| - 1])
    ensures run.result.Success? ==>
              && |run.calls| == 5 && run.calls[4].Marshal?
              && run.result == env.marshal(run.calls[4].counts)
  {
    var client := env.newClient(host, port);
    var connected := [NewClient(host, port)];
    if client.Failure? then Run(Failure(client.error), connected) else
    var root := env.createQuery(query);
    var built := connected + [CreateQuery(query)];
    if root.Failure? then Run(Failure(root.error), built) else
    var request := SearchRequest(
      Some(uri), Some(0),
      Some(root.value + [env.tileQuery(bivariate, coord)]),
      map[TOP_TERMS := GoIndex(env.getAggs(topTerms), TOP_TERMS)]);
    var res := env.send(client.value, request);
    var sent := built + [Do(client.value, request)];
    if res.Failure? then Run(Failure(res.error), sent) else
    var terms := env.getTerms(topTerms, res.value.aggregations);
    var extracted := sent + [GetTerms(topTerms, res.value.aggregations)];
    if terms.Failure? then Run(Failure(terms.error), extracted) else
    var counts := CountsOf(terms.value);
    Run(env.marshal(counts), extracted + [Marshal(counts)])
  }

  /** The request that reaches the backend: it is sent through the client the
      connection step returned, targets `uri`, asks for no documents, carries
      the caller's root query with the tile's spatial clause as one more
      `Must` clause after the caller's, and exactly one aggregation, named
      "top-terms", taken from the "top-terms" entry of the top-terms part's
      aggregations (`nil` when that entry is absent). */
  lemma SentRequest(env: Collaborators, host: string, port: string,
                    bivariate: BivariateState, topTerms: TopTermsState,
                    uri: string, coord: TileCoord, query: Json)
    ensures forall c :: c in Generate(env, host, port, bivariate, topTerms, uri, coord, query).calls && c.Do? ==>
              && env.newClient(host, port) == Success(c.client)
              && c.request.index == Some(uri)
              && c.request.size == Some(0)
              && env.createQuery(query).Success?
              && c.request.query == Some(env.createQuery(query).value + [env.tileQuery(bivariate, coord)])
              && c.request.aggregations.Keys == {TOP_TERMS}
              && c.request.aggregations[TOP_TERMS] == GoIndex(env.getAggs(topTerms), TOP_TERMS)
  {
  }

  /** Reaching the encoder means the terms were extracted, by the top-terms
      part, from the aggregations of the response the search returned, and
      the encoder is given exactly their projection. */
  lemma EncodesExtractedTerms(env: Collaborators, host: string, port: string,
                              bivariate: BivariateState, topTerms: TopTermsState,
                              uri: string, coord: TileCoord, query: Json)
    requires |Generate(env, host, port, bivariate, topTerms, uri, coord, query).calls| == 5
    ensures var calls := Generate(env, host, port, bivariate, topTerms, uri, coord, query).calls;
            && env.send(calls[2].client, calls[2].request).Success?
            && calls[3] == GetTerms(topTerms, env.send(calls[2].client, calls[2].request).value.aggregations)
            && env.getTerms(calls[3].topTerms, calls[3].aggregations).Success?
            && calls[4] == Marshal(CountsOf(env.getTerms(calls[3].topTerms, calls[3].aggregations).value))
  {
  }

  /** The projection loses nothing for document counts in [0, 2^32). */
  lemma CountsLossless(terms: map<string, Bucket>)
    ensures forall t :: t in terms && 0 <= terms[t].docCount as int < TWO_TO_32 ==>
              CountsOf(terms)[t] as int == terms[t].docCount as int
  {
  }

  /** Each fallible stage's failure, stated from the caller's side: the
      outcome is exactly that stage's error and no later stage is called;
      when every collaborator succeeds the outcome is the encoder's. */
  lemma StageFailures(env: Collaborators, host: string, port: string,
                      bivariate: BivariateState, topTerms: TopTermsState,
                      uri: string, coord: TileCoord, query: Json)
    ensures var run := Generate(env, host, port, bivariate, topTerms, uri, coord, query);
            env.newClient(host, port).Failure? ==>
              run.result == Failure(env.newClient(host, port).error) && |run.calls| == 1
    ensures var run := Generate(env, host, port, bivariate, topTerms, uri, coord, query);
            env.newClient(host, port).Success? && env.createQuery(query).Failure? ==>
              run.result == Failure(env.createQuery(query).error) && |run.calls| == 2
    ensures var run := Generate(env, host, port, bivariate, topTerms, uri, coord, query);
            |run.calls| >= 3 && env.send(run.calls[2].client, run.calls[2].request).Failure? ==>
              run.result == Failure(env.send(run.calls[2].client, run.calls[2].request).error) && |run.calls| == 3
    ensures var run := Generate(env, host, port, bivariate, topTerms, uri, coord, query);
            |run.calls| >= 4 && env.getTerms(topTerms, run.calls[3].aggregations).Failure? ==>
              run.result == Failure(env.getTerms(topTerms, run.calls[3].aggregations).error) && |run.calls| == 4
    ensures var run := Generate(env, host, port, bivariate, topTerms, uri, coord, query);
            |run.calls| >= 4 && env.getTerms(topTerms, run.calls[3].aggregations).Success? ==>
              && |run.calls| == 5
              && run.calls[4] == Marshal(CountsOf(env.getTerms(topTerms, run.calls[3].aggregations).value))
              && run.result == env.marshal(run.calls[4].counts)
  {
  }

  /** No buckets adds no error of the pipeline's own: the encoder is given
      the empty count map and its answer is the outcome. */
  lemma EmptyTermsGiveEmptyTile(env: Collaborators, host: string, port: string,
                                bivariate: BivariateState, topTerms: TopTermsState,
                                uri: string, coord: TileCoord, query: Json)
    requires |Generate(env, host, port, bivariate, topTerms, uri, coord, query).calls| >= 4
    requires var g := Generate(env, host, port, bivariate, topTerms, uri, coord, query).calls[3];
             env.getTerms(g.topTerms, g.aggregations) == Success(map[])
    ensures var run := Generate(env, host, port, bivariate, topTerms, uri, coord, query);
            && run.calls[|run.calls| - 1] == Marshal(map[])
            && run.result == env.marshal(map[])
  {
  }

  /** The encoding loop of `Create`: visits the terms in any order and
      stores each term's converted document count. The counts map has exactly
      the terms' key set, and each term maps to `uint32` of its count. */
  method EncodeCounts(terms: map<string, Bucket>) returns (counts: map<string, uint32>)
    ensures counts.Keys == terms.Keys
    ensures forall t :: t in terms ==> counts[t] == ToUint32(terms[t].docCount)
  {
    counts := map[];
    var pending := terms.Keys;
    while pending != {}
      invariant pending <= terms.Keys
      invariant counts.Keys == terms.Keys - pending
      invariant forall t :: t in counts ==> counts[t] == ToUint32(terms[t].docCount)
      decreases pending
    {
      var term :| term in pending;
      counts := counts[term := ToUint32(terms[term].docCount)];
      pending := pending - {term};
    }
  }

  /** The closure returned by `NewTopTermCountTile`: the host and port it captured. */
  datatype TileCtor = TileCtor(host: string, port: string) {
    /** Each call allocates a new tile with the captured host and port and
        zero-valued parts, and never reports an error. */
    method Call() returns (t: TopTermCountTile, err: Option<Error>)
      ensures fresh(t)
      ensures t.host == host && t.port == port
      ensures t.bivariate == BivariateState(map[]) && t.topTerms == TopTermsState(map[])
      ensures err == None
    {
      t := new TopTermCountTile();
      t.host := host;
      t.port := port;
      err := None;
    }
  }

  /** The constructor the tile registry stores: captures `host` and `port`. */
  function NewTopTermCountTile(host: string, port: string): (ctor: TileCtor)
    ensures ctor.host == host && ctor.port == port
  {
    TileCtor(host, port)
  }

  /** A top-term-count tile: the connection settings and the parsed settings
      of its bivariate-binning and top-terms parts. */
  class TopTermCountTile {
    var host: string
    var port: string
    var bivariate: BivariateState
    var topTerms: TopTermsState

    /** The zero value of the tile. */
    constructor ()
      ensures host == "" && port == ""
      ensures bivariate == BivariateState(map[]) && topTerms == TopTermsState(map[])
    {
      host, port := "", "";
      bivariate := BivariateState(map[]);
      topTerms := TopTermsState(map[]);
    }

    /** Parses the bivariate settings, then the top-terms settings, stopping
        at the first error. When the bivariate part fails its error is
        returned and the top-terms part is left as it was; otherwise the
        top-terms part's error (or `nil`) is returned. */
    method Parse(env: Collaborators, params: Params) returns (err: Option<Error>)
      modifies this
      ensures bivariate == env.bivariateParse(old(bivariate), params).0
      ensures env.bivariateParse(old(bivariate), params).1.Some? ==>
                err == env.bivariateParse(old(bivariate), params).1 && topTerms == old(topTerms)
      ensures env.bivariateParse(old(bivariate), params).1.None? ==>
                topTerms == env.topTermsParse(old(topTerms), params).0 &&
                err == env.topTermsParse(old(topTerms), params).1
      ensures host == old(host) && port == old(port)
    {
      var (b, e) := env.bivariateParse(bivariate, params);
      bivariate := b;
      if e.Some? {
        return e;
      }
      var (tt, e') := env.topTermsParse(topTerms, params);
      topTerms := tt;
      return e';
    }

    /** Creates the tile for `coord` from index `uri` under the caller's
        `query`. `calls` records the fallible calls made, for the contract;
        the run is the one `Generate` defines, so its fail-fast discipline,
        request shape and encoding hold of it. */
    method Create(env: Collaborators, uri: string, coord: TileCoord, query: Json)
      returns (r: Result<seq<byte>>, ghost calls: seq<Call>)
      ensures r == Generate(env, host, port, bivariate, topTerms, uri, coord, query).result
      ensures calls == Generate(env, host, port, bivariate, topTerms, uri, coord, query).calls
    {
      // connect (top_term_count_tile.go:41)
      var client := env.newClient(host, port);
      calls := [NewClient(host, port)];
      if client.Failure? {
        return Failure(client.error), calls;
      }
      // a search on index `uri` returning no documents (top_term_count_tile.go:46-48)
      var search := new SearchService(client.value);
      search.Index(uri);
      search.Size(0);
      // the caller's root query (top_term_count_tile.go:51)
      var root := env.createQuery(query);
      calls := calls + [CreateQuery(query)];
      if root.Failure? {
        return Failure(root.error), calls;
      }
      var q := new BoolQuery(root.value);
      // the tile's clause as one more conjunct, then the query on the search (top_term_count_tile.go:56-58)
      q.Must(env.tileQuery(bivariate, coord));
      search.Query(q);
      // the single "top-terms" aggregation (top_term_count_tile.go:60-62)
      var aggs := env.getAggs(topTerms);
      search.Aggregation(TOP_TERMS, GoIndex(aggs, TOP_TERMS));
      // the backend round trip (top_term_count_tile.go:64)
      var request := search.Request();
      var res := env.send(search.client, request);
      calls := calls + [Do(search.client, request)];
      if res.Failure? {
        return Failure(res.error), calls;
      }
      // the term buckets of the response (top_term_count_tile.go:69)
      var terms := env.getTerms(topTerms, res.value.aggregations);
      calls := calls + [GetTerms(topTerms, res.value.aggregations)];
      if terms.Failure? {
        return Failure(terms.error), calls;
      }
      // the count projection (top_term_count_tile.go:74-77)
      var counts := EncodeCounts(terms.value);
      assert counts == CountsOf(terms.value);
      // the encoder's answer is the outcome (top_term_count_tile.go:79)
      calls := calls + [Marshal(counts)];
      r := env.marshal(counts);
    }
  }
}
