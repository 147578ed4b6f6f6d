/** The mutable request builders of the search client that the tile generator
    drives: a boolean query whose `Must` list grows in place, and a search
    service whose target index, result size, query and aggregations are set
    one call at a time. Only the parts the generator touches are modelled. */
module Search {
  import opened Values

  /** One filter clause of a query (a bivariate tile range, a term match, ...). */
  datatype Clause = Clause(body: Json)

  /** One aggregation description, as registered on a search request. */
  datatype Aggregation = Aggregation(body: Json)

  /** A client handle as returned by the connection step. */
  datatype Client = Client(host: string, port: string)

  /** What a search service holds at the moment it is sent: the target index,
      the requested number of documents, the conjunction of `Must` clauses
      (`None` when no query was set) and the named aggregations (`None` for a
      `nil` aggregation). */
  datatype SearchRequest = SearchRequest(
    index: Option<string>,
    size: Option<int>,
    query: Option<seq<Clause>>,
    aggregations: map<string, Option<Aggregation>>)

  /** A boolean query; the generator only appends `Must` clauses to it, so it is
      modelled as the conjunction of those clauses. */
  class BoolQuery {
    var must: seq<Clause>

    /** The root query as built from the caller's query. */
    constructor (clauses: seq<Clause>)
      ensures must == clauses
    {
      must := clauses;
    }

    /** Adds one clause that every matching document must satisfy, after the
        clauses already present. */
    method Must(c: Clause)
      modifies this
      ensures must == old(must) + [c]
    {
      must := must + [c];
    }
  }

  /** A search request under construction, bound to the client that will send it. */
  class SearchService {
    const client: Client
    var index: Option<string>
    var size: Option<int>
    var query: BoolQuery?
    var aggregations: map<string, Option<Aggregation>>

    /** `client.Search()`: a service with nothing set yet. */
    constructor (client: Client)
      ensures this.client == client
      ensures index == None && size == None && query == null && aggregations == map[]
    {
      this.client := client;
      index := None;
      size := None;
      query := null;
      aggregations := map[];
    }

    /** Targets the named index. */
    method Index(name: string)
      modifies this
      ensures index == Some(name)
      ensures size == old(size) && query == old(query) && aggregations == old(aggregations)
    {
      index := Some(name);
    }

    /** Sets how many matching documents the response returns. */
    method Size(n: int)
      modifies this
      ensures size == Some(n)
      ensures index == old(index) && query == old(query) && aggregations == old(aggregations)
    {
      size := Some(n);
    }

    /** Sets the query by reference: later changes to `q` are seen when the
        request is sent. */
    method Query(q: BoolQuery)
      modifies this
      ensures query == q
      ensures index == old(index) && size == old(size) && aggregations == old(aggregations)
    {
      query := q;
    }

    /** Registers (or replaces) the aggregation called `name`. */
    method Aggregation(name: string, agg: Option<Aggregation>)
      modifies this
      ensures aggregations == old(aggregations)[name := agg]
      ensures index == old(index) && size == old(size) && query == old(query)
    {
      aggregations := aggregations[name := agg];
    }

    /** The request as it is sent, reading the query through its reference. */
    function Request(): (r: SearchRequest)
      reads this, query
      ensures r.index == index && r.size == size && r.aggregations == aggregations
      ensures r.query.Some? <==> query != null
      ensures query != null ==> r.query.value == query.must
    {
      SearchRequest(index, size, if query == null then None else Some(query.must), aggregations)
    }
  }
}
