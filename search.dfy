/** `searchLogs` and its two helpers: make sure the index exists (creating it when the
    cluster lacks it), build the search for this VM's recent logs, and print what comes
    back. The cluster is a `Cluster` object; the response to the search is a parameter,
    standing for whatever the server returns. */
module LogSearch {
  import opened Text
  import opened TelegrafConfig

  /** The OpenSearch cluster as index management sees it: the names of its indices, and
      the index names of the creation requests it has received, oldest first. */
  class Cluster {
    var indices: set<string>
    var createRequests: seq<string>

    constructor (existing: set<string>)
      ensures indices == existing && createRequests == []
    {
      indices := existing;
      createRequests := [];
    }
  }

  /** The notice `createIndex` prints after the server has created the index. */
  function CreatedNotice(indexName: string): (notice: string)
    ensures |notice| == 15 + |indexName| && notice[15..] == indexName
  {
    "Index created: " + indexName
  }

  /** `isIndexExists`: asks the cluster whether the index exists; changes nothing. */
  method IsIndexExists(cluster: Cluster, indexName: string) returns (exists_: bool)
    ensures exists_ <==> indexName in cluster.indices
  {
    exists_ := indexName in cluster.indices;
  }

  /** Why the server turns down a request. */
  datatype Refusal = IndexAlreadyExists(indexName: string)

  /** The outcome of a call that can be refused. */
  datatype Result<T> = Ok(value: T) | Failed(refusal: Refusal)

  /** `createIndex`: sends a creation request with no settings and no mapping, then prints
      the notice. The server refuses to create an index that already exists; the client
      then throws, so nothing is printed and the cluster's indices are unchanged. Either
      way the request reaches the server. */
  method CreateIndex(cluster: Cluster, indexName: string) returns (r: Result<seq<string>>)
    modifies cluster
    ensures cluster.createRequests == old(cluster.createRequests) + [indexName]
    ensures indexName !in old(cluster.indices) ==>
      cluster.indices == old(cluster.indices) + {indexName} && r == Ok([CreatedNotice(indexName)])
    ensures indexName in old(cluster.indices) ==>
      cluster.indices == old(cluster.indices) && r == Failed(IndexAlreadyExists(indexName))
  {
    cluster.createRequests := cluster.createRequests + [indexName];
    if indexName in cluster.indices {
      r := Failed(IndexAlreadyExists(indexName));
    } else {
      cluster.indices := cluster.indices + {indexName};
      r := Ok([CreatedNotice(indexName)]);
    }
  }

  /** The indices after the check-then-create step, as a function of those before. */
  function Ensured(indices: set<string>, indexName: string): (r: set<string>)
    ensures indexName in r && indices <= r
    ensures forall n :: n in r && n != indexName ==> n in indices
  {
    indices + {indexName}
  }

  /** The creation requests the check-then-create step sends: one when the index is
      missing, none when it is there. */
  function EnsureRequests(indices: set<string>, indexName: string): (sent: seq<string>)
    ensures |sent| == if indexName in indices then 0 else 1
    ensures forall n :: n in sent ==> n == indexName
  {
    if indexName in indices then [] else [indexName]
  }

  /** What the check-then-create step prints: the notice exactly when it created the index. */
  function EnsureOutput(indices: set<string>, indexName: string): (out: seq<string>)
    ensures out == [] <==> indexName in indices
    ensures out != [] ==> out == [CreatedNotice(indexName)]
  {
    if indexName in indices then [] else [CreatedNotice(indexName)]
  }

  /** Lines 149-151 of `searchLogs`: create the index only if the cluster lacks it, so the
      server never has cause to refuse. */
  method EnsureIndex(cluster: Cluster, indexName: string) returns (out: seq<string>)
    modifies cluster
    ensures cluster.indices == Ensured(old(cluster.indices), indexName)
    ensures cluster.createRequests == old(cluster.createRequests) + EnsureRequests(old(cluster.indices), indexName)
    ensures out == EnsureOutput(old(cluster.indices), indexName)
  {
    var present := IsIndexExists(cluster, indexName);
    out := [];
    if !present {
      var r := CreateIndex(cluster, indexName);
      assert r.Ok?;
      out := r.value;
    }
  }

  /** Running the step again changes nothing and prints nothing: after one run the index
      exists, so the second run sends no creation request. */
  lemma EnsureIdempotent(indices: set<string>, indexName: string)
    ensures Ensured(Ensured(indices, indexName), indexName) == Ensured(indices, indexName)
    ensures EnsureOutput(Ensured(indices, indexName), indexName) == []
    ensures EnsureRequests(Ensured(indices, indexName), indexName) == []
  {
  }

  /** The step leaves every other index as it was: it only ever adds the one it names. */
  lemma EnsureTouchesOnlyItsIndex(indices: set<string>, indexName: string, other: string)
    requires other != indexName
    ensures other in Ensured(indices, indexName) <==> other in indices
  {
  }

  /** The parts of the OpenSearch query language the search uses. */
  datatype Query =
    | MatchQuery(field: string, text: string)
    | RangeQuery(field: string, gte: Option<string>, lte: Option<string>)
    | BoolQuery(must: seq<Query>, filter: seq<Query>)

  datatype SortOrder = Asc | Desc

  datatype FieldSort = FieldSort(field: string, order: SortOrder)

  /** A `SearchSourceBuilder`: optional query, optional page size, sort keys in order. */
  datatype SearchSource = SearchSource(query: Option<Query>, size: Option<nat>, sorts: seq<FieldSort>)

  /** A `SearchRequest`: the indices searched and the search body. */
  datatype SearchRequest = SearchRequest(indices: seq<string>, source: Option<SearchSource>)

  const TIMESTAMP_FIELD := "@timestamp"

  /** The document field Telegraf's OpenSearch output files a tag under. */
  function TagField(k: Key): string
  {
    "tag." + KeyName(k)
  }

  /** Appending required clauses and filter clauses, as `BoolQueryBuilder.must` and
      `BoolQueryBuilder.filter` do. */
  function AddMust(q: Query, c: Query): (r: Query)
    requires q.BoolQuery?
    ensures r.BoolQuery? && r.must == q.must + [c] && r.filter == q.filter
  {
    q.(must := q.must + [c])
  }

  function AddFilter(q: Query, c: Query): (r: Query)
    requires q.BoolQuery?
    ensures r.BoolQuery? && r.filter == q.filter + [c] && r.must == q.must
  {
    q.(filter := q.filter + [c])
  }

  /** The search `searchLogs` builds, step by step as the source does. */
  method BuildSearchRequest(s: Settings) returns (request: SearchRequest)
    ensures request == LogSearchRequest(s)
  {
    request := SearchRequest([s.indexName], None);
    var source := SearchSource(None, None, []);
    var boolQuery := BoolQuery([], []);
    boolQuery := AddMust(boolQuery, MatchQuery(TagField(MciGroupId), s.mciGroupId));
    boolQuery := AddMust(boolQuery, MatchQuery(TagField(VmId), s.vmId));
    var rangeQuery := RangeQuery(TIMESTAMP_FIELD, None, None);
    rangeQuery := rangeQuery.(gte := Some("now-1d/d"));
    rangeQuery := rangeQuery.(lte := Some("now"));
    boolQuery := AddFilter(boolQuery, rangeQuery);
    assert boolQuery.must == [MatchQuery(TagField(MciGroupId), s.mciGroupId), MatchQuery(TagField(VmId), s.vmId)];
    assert boolQuery.filter == [rangeQuery];
    source := source.(query := Some(boolQuery));
    source := source.(size := Some(100));
    source := source.(sorts := source.sorts + [FieldSort(TIMESTAMP_FIELD, Desc)]);
    assert source.sorts == [FieldSort(TIMESTAMP_FIELD, Desc)];
    request := request.(source := Some(source));
  }

  /** The request as a value: one index, a bool query whose required clauses match the
      two tags and whose filter keeps the last day, 100 hits at most, newest first. */
  function LogSearchRequest(s: Settings): (r: SearchRequest)
    ensures r.indices == [s.indexName]
    ensures r.source.Some? && r.source.value.query.Some? && r.source.value.query.value.BoolQuery?
    ensures r.source.value.size == Some(100)
    ensures r.source.value.sorts == [FieldSort(TIMESTAMP_FIELD, Desc)]
  {
    var must := [MatchQuery(TagField(MciGroupId), s.mciGroupId), MatchQuery(TagField(VmId), s.vmId)];
    var window := RangeQuery(TIMESTAMP_FIELD, Some("now-1d/d"), Some("now"));
    SearchRequest([s.indexName], Some(SearchSource(Some(BoolQuery(must, [window])), Some(100), [FieldSort(TIMESTAMP_FIELD, Desc)])))
  }

  /** The bool query of a request, when it has one. */
  function BoolOf(r: SearchRequest): Option<Query>
  {
    if r.source.Some? && r.source.value.query.Some? && r.source.value.query.value.BoolQuery? then
      r.source.value.query
    else None
  }

  /** The (field, text) pairs a bool query requires to match. */
  function RequiredMatches(q: Query): set<(string, string)>
    requires q.BoolQuery?
  {
    set c | c in q.must && c.MatchQuery? :: (c.field, c.text)
  }

  /** The search requires exactly two matches, the group tag first and then the VM tag,
      each for the value the settings give it. */
  lemma RequiresBothTags(s: Settings)
    ensures BoolOf(LogSearchRequest(s)).Some?
    ensures var q := BoolOf(LogSearchRequest(s)).value;
      && q.must == [MatchQuery("tag.mci_group_id", s.mciGroupId), MatchQuery("tag.vm_id", s.vmId)]
      && RequiredMatches(q) == {(TagField(MciGroupId), s.mciGroupId), (TagField(VmId), s.vmId)}
  {
    var q := BoolOf(LogSearchRequest(s)).value;
    assert TagField(MciGroupId) == "tag.mci_group_id" && TagField(VmId) == "tag.vm_id";
    assert q.must == [MatchQuery(TagField(MciGroupId), s.mciGroupId), MatchQuery(TagField(VmId), s.vmId)];
    assert q.must[0] in q.must && q.must[1] in q.must;
  }

  /** The only filter is a closed range on the timestamp, from the start of yesterday
      (`now-1d/d`) to now. */
  lemma FiltersLastDay(s: Settings)
    ensures BoolOf(LogSearchRequest(s)).Some?
    ensures BoolOf(LogSearchRequest(s)).value.filter == [RangeQuery(TIMESTAMP_FIELD, Some("now-1d/d"), Some("now"))]
  {
  }

  /** The search reads the index the written configuration's output sends to. */
  lemma {:induction false} SearchReadsConfiguredIndex(s: Settings, pattern: string)
    ensures Lookup(ConfigLines(s, pattern), IndexName) == Some(Quoted(LogSearchRequest(s).indices[0]))
  {
    LookupIntended(s, pattern, IndexName);
  }

  /** For each of the two tags the configuration's tags table sets, the search requires
      that tag's field to match the value the file gives it. */
  lemma {:induction false} SearchRequiresConfiguredTag(s: Settings, pattern: string, k: Key)
    requires k == VmId || k == MciGroupId
    ensures var v := Lookup(ConfigLines(s, pattern), k);
      v.Some? && v.value.Quoted? && (TagField(k), v.value.text) in RequiredMatches(BoolOf(LogSearchRequest(s)).value)
  {
    LookupIntended(s, pattern, k);
    RequiresBothTags(s);
  }

  /** One hit of a response, as its source document's JSON text. */
  datatype Hit = Hit(sourceAsString: string)

  /** A response: the total hit count the server reports, and the page of hits it sent. */
  datatype SearchResponse = SearchResponse(totalHits: int, hits: seq<Hit>)

  const NO_RESULTS := "No results found."

  /** What the result branch prints, one string per `println`. */
  function Report(response: SearchResponse): (printed: seq<string>)
    ensures |printed| == if response.totalHits > 0 then |response.hits| else 1
    ensures NO_RESULTS in printed ==> response.totalHits <= 0 || exists h :: h in response.hits && h.sourceAsString == NO_RESULTS
  {
    if response.totalHits > 0 then
      seq(|response.hits|, i requires 0 <= i < |response.hits| => response.hits[i].sourceAsString)
    else [NO_RESULTS]
  }

  /** The result branch: with a positive total, every hit of the page is printed, in
      order, one line each; otherwise the single line "No results found.". */
  lemma ReportLines(response: SearchResponse)
    ensures response.totalHits > 0 ==>
      |Report(response)| == |response.hits|
      && forall i :: 0 <= i < |response.hits| ==> Report(response)[i] == response.hits[i].sourceAsString
    ensures response.totalHits <= 0 ==> Report(response) == [NO_RESULTS]
  {
  }

  /** The server sends at most the requested 100 hits, so at most 100 lines are printed. */
  lemma ReportBounded(s: Settings, response: SearchResponse)
    requires |response.hits| <= LogSearchRequest(s).source.value.size.value
    ensures |Report(response)| <= 100
  {
  }

  /** A positive total with an empty page prints nothing at all, not even the
      "No results found." line. */
  lemma CountedButEmptyPage(response: SearchResponse)
    requires response.totalHits > 0 && response.hits == []
    ensures Report(response) == []
  {
  }

  /** `searchResponse.getHits().forEach(...)` or the else branch, as a loop over the page. */
  method PrintResults(response: SearchResponse) returns (out: seq<string>)
    ensures out == Report(response)
  {
    if response.totalHits > 0 {
      out := [];
      var i := 0;
      while i < |response.hits|
        invariant 0 <= i <= |response.hits|
        invariant |out| == i
        invariant forall j :: 0 <= j < i ==> out[j] == response.hits[j].sourceAsString
      {
        out := out + [response.hits[i].sourceAsString];
        i := i + 1;
      }
    } else {
      out := [NO_RESULTS];
    }
  }

  /** `searchLogs`: make sure the index exists, search it for this VM's logs of the last
      day, print the hits. `respond` is the server's answer to a request, given the
      indices it holds at that moment. */
  method SearchLogs(cluster: Cluster, s: Settings, respond: (set<string>, SearchRequest) -> SearchResponse)
    returns (request: SearchRequest, out: seq<string>)
    modifies cluster
    ensures cluster.indices == Ensured(old(cluster.indices), s.indexName)
    ensures cluster.createRequests == old(cluster.createRequests) + EnsureRequests(old(cluster.indices), s.indexName)
    ensures request == LogSearchRequest(s)
    ensures out == EnsureOutput(old(cluster.indices), s.indexName) + Report(respond(cluster.indices, request))
  {
    out := EnsureIndex(cluster, s.indexName);
    request := BuildSearchRequest(s);
    var response := respond(cluster.indices, request);
    var printed := PrintResults(response);
    out := out + printed;
  }

  /** The first run against a cluster without the index sends one creation request, and
      when the new, empty index yields no hits prints exactly the notice and
      "No results found.". */
  lemma FirstRunOnEmptyCluster(indices: set<string>)
    requires DEFAULT_SETTINGS.indexName !in indices
    ensures EnsureRequests(indices, DEFAULT_SETTINGS.indexName) == ["telegraf-test"]
    ensures EnsureOutput(indices, DEFAULT_SETTINGS.indexName) + Report(SearchResponse(0, []))
      == [CreatedNotice("telegraf-test"), NO_RESULTS]
  {
  }

  /** Any later run prints only the results: the index is there already. */
  lemma LaterRunPrintsOnlyResults(indices: set<string>, indexName: string, response: SearchResponse)
    ensures EnsureOutput(Ensured(indices, indexName), indexName) + Report(response) == Report(response)
  {
  }
}
