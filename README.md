# Top-term-count tile generator, modelled in Dafny

This project models the elasticsearch top-term-count tile of veldt
(`generation/elastic/top_term_count_tile.go`). The model covers three things:

- The tile constructor closure, which captures a host and a port.
- `Parse`, which runs the bivariate-binning parser and then the top-terms parser, and stops at the first error.
- `Create`, the fail-fast tile pipeline. It connects a client and points a search at the index named by its `uri` argument, asking for zero documents. It builds the caller's root query and adds the bivariate tile clause to it as a `Must` clause. It registers the `"top-terms"` aggregation, sends the search and extracts the term buckets. Finally it projects each bucket to its document count as a `uint32` and marshals the resulting map.

Files:

- `values.dfy` (module `Values`): Go's `error`/`nil` conventions (`Option`, `Result`, `Error`), the `int64` and `uint32` widths, Go's `uint32(int64)` conversion (`ToUint32`), Go's nil-defaulting map index (`GoIndex`), and an opaque `Json` value.
- `search.dfy` (module `Search`): the two mutable request builders the generator drives. `BoolQuery` holds the `Must` list that grows in place. `SearchService` is set one call at a time: `Index`, `Size`, `Query` (kept by reference) and `Aggregation`. `SearchRequest` is what the service holds when it is sent.
- `tile.dfy` (module `Elastic`): the tile class with `Parse` and `Create`, and the closure `TileCtor`. It also holds `Generate`, the pure reference definition that `Create` is proved against, and the lemmas about it. The encoding loop of `Create` is the method `EncodeCounts`, which `Create` calls at the point where the loop stands.

The code this file calls but does not contain is taken as a parameter. That covers the client connection, `Bivariate.Parse` and `GetQuery`, `TopTerms.Parse`, `GetAggs` and `GetTerms`, `Tile.CreateQuery`, `search.Do` and `json.Marshal`. Together they form the `Collaborators` record: any total functions of the given types. The two parse steps each return a pair: the part's new settings and an optional error. The other fallible ones return a `Result`. So every property below holds whatever those collaborators do. `Create` returns a ghost log of the fallible calls it made, with their arguments. This log is how the model states which stages ran after a failure (none) and which request reached the backend.

What the code does, and so what the model does:

- The code passes every collaborator error on unchanged. It does not tag errors by kind.
- The code converts each `int64` document count with Go's `uint32(...)`. Counts outside [0, 2^32) wrap modulo 2^32; they are not rejected.
- The code appends the tile clause to whatever `Must` clauses the root query already has.
- The code does not truncate to the top N terms or order the buckets. That is left to the aggregation and to `GetTerms`; the encoder keeps every term it is given.

## Model

| member | source | states |
|---|---|---|
| `Values.ToUint32` | vendor/github.com/unchartedsoftware/veldt/generation/elastic/top_term_count_tile.go:76 | the converted count is congruent to the document count modulo 2^32, and equal to it when the count is in [0, 2^32) |
| `Values.ToUint32Wraps` | vendor/github.com/unchartedsoftware/veldt/generation/elastic/top_term_count_tile.go:76 | out-of-range counts wrap: -1 becomes 2^32-1, 2^32 becomes 0, 2^32+5 becomes 5 |
| `Values.GoIndex` | vendor/github.com/unchartedsoftware/veldt/generation/elastic/top_term_count_tile.go:62 | `aggs["top-terms"]` is the entry when the key is present and `nil` exactly when it is absent |
| `Search.BoolQuery.constructor` | vendor/github.com/unchartedsoftware/veldt/generation/elastic/top_term_count_tile.go:51 | the root query starts as the conjunction of the clauses the caller's query built |
| `Search.BoolQuery.Must` | vendor/github.com/unchartedsoftware/veldt/generation/elastic/top_term_count_tile.go:56 | `q.Must(c)` appends `c` after the existing clauses, in place |
| `Search.SearchService.constructor` | vendor/github.com/unchartedsoftware/veldt/generation/elastic/top_term_count_tile.go:46 | `client.Search()` is a service for that client with no index, size, query or aggregation set |
| `Search.SearchService.Index` | vendor/github.com/unchartedsoftware/veldt/generation/elastic/top_term_count_tile.go:47 | sets the target index and leaves the rest unchanged |
| `Search.SearchService.Size` | vendor/github.com/unchartedsoftware/veldt/generation/elastic/top_term_count_tile.go:48 | sets the number of documents returned and leaves the rest unchanged |
| `Search.SearchService.Query` | vendor/github.com/unchartedsoftware/veldt/generation/elastic/top_term_count_tile.go:58 | stores the query by reference and leaves the rest unchanged |
| `Search.SearchService.Request` | vendor/github.com/unchartedsoftware/veldt/generation/elastic/top_term_count_tile.go:64 | what `search.Do()` sends: the service's index, size and aggregations, and the current `Must` clauses of the query object it holds (no query when none was set) |
| `Search.SearchService.Aggregation` | vendor/github.com/unchartedsoftware/veldt/generation/elastic/top_term_count_tile.go:62 | registers the aggregation under its name and leaves the rest unchanged |
| `Elastic.NewTopTermCountTile` | vendor/github.com/unchartedsoftware/veldt/generation/elastic/top_term_count_tile.go:19-20 | the returned closure captures exactly the given host and port |
| `Elastic.TileCtor.Call` | vendor/github.com/unchartedsoftware/veldt/generation/elastic/top_term_count_tile.go:20-25 | each call yields a freshly allocated tile whose host and port are the captured ones, with zero-valued parts, and never an error |
| `Elastic.TopTermCountTile.constructor` | vendor/github.com/unchartedsoftware/veldt/generation/elastic/top_term_count_tile.go:21 | `&TopTermCountTile{}` is the zero value: empty host and port, unparsed parts |
| `Elastic.TopTermCountTile.Parse` | vendor/github.com/unchartedsoftware/veldt/generation/elastic/top_term_count_tile.go:29-35 | a bivariate parse error is returned unchanged and the top-terms part is left untouched (its parser does not run); otherwise the result and new state are exactly the top-terms parser's; host and port are unchanged |
| `Elastic.Generate` | vendor/github.com/unchartedsoftware/veldt/generation/elastic/top_term_count_tile.go:39-80 | fail fast: the calls made are a prefix of client, root query, search, terms, marshal, in that order, starting with the client for the tile's host and port, then `CreateQuery(query)`, and `GetTerms` on the aggregations of a successful search; every call but the last succeeded; the outcome's error is the last call's error (nil bytes on failure); success only after marshal, with marshal's result |
| `Elastic.StageFailures` | vendor/github.com/unchartedsoftware/veldt/generation/elastic/top_term_count_tile.go:41-79 | a failing client creation, root query, search or term extraction makes the outcome exactly that stage's error, and no later stage is called; when extraction succeeds, marshal is called on the terms' count projection and its answer is the outcome |
| `Elastic.SentRequest` | vendor/github.com/unchartedsoftware/veldt/generation/elastic/top_term_count_tile.go:41-62 | a sent search goes through the client the connection step produced, targets `uri`, has size 0, carries the root query plus exactly one more `Must` clause (the bivariate tile clause for `coord`) after the caller's, and exactly one aggregation, `"top-terms"`, taken from the `"top-terms"` entry of `GetAggs()` |
| `Elastic.EncodesExtractedTerms` | vendor/github.com/unchartedsoftware/veldt/generation/elastic/top_term_count_tile.go:64-79 | when marshal is reached, the terms came from `GetTerms` on the aggregations of the response the search returned, and marshal receives exactly their count projection |
| `Elastic.CountsOf` | vendor/github.com/unchartedsoftware/veldt/generation/elastic/top_term_count_tile.go:74-77 | the projection `Generate` encodes: the counts map has exactly the terms' key set, and each value is `uint32(bucket.DocCount)` |
| `Elastic.CountsLossless` | vendor/github.com/unchartedsoftware/veldt/generation/elastic/top_term_count_tile.go:76 | a document count in [0, 2^32) reaches the counts map unchanged |
| `Elastic.EmptyTermsGiveEmptyTile` | vendor/github.com/unchartedsoftware/veldt/generation/elastic/top_term_count_tile.go:74-79 | an empty terms map adds no error of the pipeline's own: marshal receives the empty counts map and the outcome is marshal's answer for it |
| `Elastic.EncodeCounts` | vendor/github.com/unchartedsoftware/veldt/generation/elastic/top_term_count_tile.go:74-77 | the `for term, bucket := range terms` loop, visiting terms in any order, fills a map with exactly the terms' key set, each term mapped to `uint32(bucket.DocCount)`; its invariant is that the keys processed so far are exactly those in the map |
| `Elastic.TopTermCountTile.Create` | vendor/github.com/unchartedsoftware/veldt/generation/elastic/top_term_count_tile.go:39-80 | driving the builders and the encoding loop returns exactly the outcome `Generate` defines and makes exactly its calls |

## Left out

- Network I/O and connection handling. `NewClient` and `search.Do` are the collaborator functions `newClient` and `send`. Host and port are only stored and passed on.
- The code of `Bivariate.Parse`, `Bivariate.GetQuery`, `TopTerms.Parse`, `TopTerms.GetAggs`, `TopTerms.GetTerms` and `Tile.CreateQuery`, which is not part of this model. Each is a collaborator function. The parts' parsed settings are opaque parameter maps.
- The root query is modelled as its list of `Must` clauses. Other parts of a boolean query (filter, should, must-not) are not modelled. The collaborator returns the clauses, and the `BoolQuery` object is allocated in `Create`.
- The byte layout of `json.Marshal` is left out. It is a collaborator from the count map to bytes or an error.
- `nil` bucket pointers in the map `GetTerms` returns are left out. Buckets are values, so the `nil` dereference the Go loop would panic on is not modelled. A `nil` response with a `nil` error is left out for the same reason.
- Go's randomised map iteration order is modelled by picking any remaining key. The result does not depend on the order.
- Concurrency across tile requests is left out. This file uses none.
