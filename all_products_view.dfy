/** The product database screen (src/components/crm/AllProductsView.jsx): the list is
    fetched once into a cache that outlives the screen, filtered by a search term and a
    status, and shown in chunks of `ITEMS_PER_PAGE` that grow as the list is scrolled;
    a CSV upload invalidates the cache and schedules a refetch. The replies of the
    database service are inputs, and each timer or effect is an event method. */
module AllProductsView {
  import opened Wrappers
  import opened Text
  import opened Js
  import opened Config
  import opened Sequences

  /** `API_CONFIG.ITEMS_PER_PAGE || 10`: the configured page size is not falsy. */
  const PAGE: nat := ITEMS_PER_PAGE

  const ALL: string := "All"

  /** What the screen's error line can hold; `Wording` gives the text shown. */
  datatype Notice = NoNotice | NoMatch | NoData | FetchError(message: string) | UploadError(message: string)

  /** The text of a notice; only `NoNotice` is the empty string. */
  function Wording(n: Notice): (text: string)
    ensures text == [] <==> n == NoNotice
  {
    match n
    case NoNotice => []
    case NoMatch => "No results found matching the current filters."
    case NoData => "No data found in API response. Please upload a CSV file."
    case FetchError(m) => "\U{274C} Error fetching data: " + m + ". Make sure the Database API URL is correct."
    case UploadError(m) => "\U{274C} Error uploading CSV: " + m
  }

  // The `getFieldValue` key lists. They are functions rather than constants so that
  // the verifier unfolds a lookup over them only where a proof asks for it.
  function DescriptionKeys(): seq<string> { ["Item_Description", "itemDescription", "item_description"] }
  function BuyerKeys(): seq<string> { ["Potential_Buyer_1", "potentialBuyer1", "potential_buyer_1"] }
  function StatusKeys(): seq<string> { ["Status", "status"] }

  // ---------------------------------------------------------------------------
  // The filter predicate

  /** The lower-cased description. The `|| ''` after `getFieldValue` is never taken. */
  function Description(v: Record): string {
    ToLower(GetFieldValue(v, DescriptionKeys()))
  }

  function Buyer(v: Record): string {
    ToLower(GetFieldValue(v, BuyerKeys()))
  }

  /** `(vendor.Id || '').toString()`: not lower-cased. */
  function IdText(v: Record): string {
    ToJsString(Or(Get(v, "Id"), Str("")))
  }

  /** The lower-cased status. The `|| 'Active'` after `getFieldValue` is never taken. */
  function NormalisedStatus(v: Record): string {
    ToLower(GetFieldValue(v, StatusKeys()))
  }

  predicate MatchesSearch(v: Record, term: string) {
    var t := ToLower(term);
    Contains(Description(v), t) || Contains(Buyer(v), t) || Contains(IdText(v), t)
  }

  predicate MatchesStatus(v: Record, status: string) {
    status == ALL || NormalisedStatus(v) == ToLower(status)
  }

  /** The predicate of `filterAndChunkData`. */
  predicate Keep(v: Record, term: string, status: string) {
    MatchesSearch(v, term) && MatchesStatus(v, status)
  }

  /** The predicate of the first filter after a fetch: the description alone is searched. */
  predicate InitialKeep(v: Record, search: string, status: string) {
    Contains(Description(v), ToLower(search)) && MatchesStatus(v, status)
  }

  /** The two filters the screen applies: `filterAndChunkData`'s, and the one right
      after a fetch. */
  datatype Criterion = Full(term: string, status: string) | Initial(search: string, status: string)

  predicate Accepts(c: Criterion, v: Record) {
    match c
    case Full(term, status) => Keep(v, term, status)
    case Initial(search, status) => InitialKeep(v, search, status)
  }

  /** `cache.filter(...)` with the criterion's predicate. */
  function Select(cache: seq<Record>, c: Criterion): (r: seq<Record>)
    ensures |r| <= |cache|
  {
    if cache == [] then []
    else
      var n := |cache| - 1;
      Select(cache[..n], c) + Picked(c, cache[n])
  }

  /** What one record adds to the filtered list: itself, when the criterion accepts it. */
  function Picked(c: Criterion, x: Record): (r: seq<Record>)
    ensures forall v :: v in r <==> v == x && Accepts(c, x)
    ensures Accepts(c, x) ==> r == [x]
    ensures !Accepts(c, x) ==> r == []
  {
    if Accepts(c, x) then [x] else []
  }

  function Filtered(cache: seq<Record>, term: string, status: string): (r: seq<Record>) {
    Select(cache, Full(term, status))
  }

  function InitiallyFiltered(cache: seq<Record>, search: string, status: string): (r: seq<Record>) {
    Select(cache, Initial(search, status))
  }

  /** A record is kept exactly when it is in the cache and the criterion accepts it. */
  lemma {:induction false} SelectMembers(cache: seq<Record>, c: Criterion, v: Record)
    ensures v in Select(cache, c) <==> v in cache && Accepts(c, v)
  {
    if cache != [] {
      var n := |cache| - 1;
      SelectMembers(cache[..n], c, v);
      InitLast(cache);
      AppendMembers(cache[..n], [cache[n]], v);
      AppendMembers(Select(cache[..n], c), Picked(c, cache[n]), v);
    }
  }

  lemma {:induction false} SelectSnoc(s: seq<Record>, c: Criterion)
    requires s != []
    ensures Select(s, c) == Select(s[..|s| - 1], c) + Picked(c, s[|s| - 1])
  {
  }

  /** Filtering keeps order: it distributes over concatenation. */
  lemma {:induction false} SelectAppend(a: seq<Record>, b: seq<Record>, c: Criterion)
    ensures Select(a + b, c) == Select(a, c) + Select(b, c)
  {
    if b == [] {
      assert a + b == a;
    } else {
      var n := |b| - 1;
      SelectAppend(a, b[..n], c);
      SplitLast(a, b);
      SelectSnoc(a + b, c);
      SelectSnoc(b, c);
      AppendAssoc(Select(a, c), Select(b[..n], c), Picked(c, b[n]));
    }
  }

  /** A criterion every record meets keeps the whole cache. */
  lemma {:induction false} SelectAll(cache: seq<Record>, c: Criterion)
    requires forall i :: 0 <= i < |cache| ==> Accepts(c, cache[i])
    ensures Select(cache, c) == cache
  {
    if cache != [] {
      var n := |cache| - 1;
      SelectAll(cache[..n], c);
      InitLast(cache);
    }
  }

  /** A record is in the filtered list exactly when it is in the cache, its description,
      buyer or id contains the lower-cased term, and its status matches. */
  lemma {:induction false} FilteredMembers(cache: seq<Record>, term: string, status: string, v: Record)
    ensures v in Filtered(cache, term, status) <==>
      && v in cache
      && (Contains(Description(v), ToLower(term)) || Contains(Buyer(v), ToLower(term))
          || Contains(IdText(v), ToLower(term)))
      && (status == ALL || NormalisedStatus(v) == ToLower(status))
  {
    SelectMembers(cache, Full(term, status), v);
  }

  /** Filtering keeps cache order: the filtered list of a concatenation is the filtered
      first part followed by the filtered second part. */
  lemma {:induction false} FilteredKeepsOrder(a: seq<Record>, b: seq<Record>, term: string, status: string)
    ensures Filtered(a + b, term, status) == Filtered(a, term, status) + Filtered(b, term, status)
  {
    SelectAppend(a, b, Full(term, status));
  }

  /** An empty term with the status "All" keeps the whole cache. */
  lemma {:induction false} EmptyFilterKeepsAll(cache: seq<Record>)
    ensures Filtered(cache, "", ALL) == cache
  {
    forall i | 0 <= i < |cache| ensures Accepts(Full("", ALL), cache[i]) {
      assert Contains(Description(cache[i]), ToLower(""));
    }
    SelectAll(cache, Full("", ALL));
  }

  /** A record with neither `Status` nor `status` normalises to "n/a", so it never
      matches the status "Active". */
  lemma {:induction false} MissingStatusIsNotAvailable(v: Record)
    requires !Present(v, "Status") && !Present(v, "status")
    ensures NormalisedStatus(v) == "n/a"
    ensures !MatchesStatus(v, "Active")
  {
    assert !Present(v, StatusKeys()[0]) && !Present(v, StatusKeys()[1]);
    assert GetFieldValue(v, StatusKeys()) == NOT_AVAILABLE;
    NotAvailableLower();
  }

  /** Every record the first filter after a fetch keeps, `filterAndChunkData` keeps too. */
  lemma {:induction false} InitialWithinFiltered(cache: seq<Record>, search: string, status: string, v: Record)
    requires v in InitiallyFiltered(cache, search, status)
    ensures v in Filtered(cache, search, status)
  {
    SelectMembers(cache, Initial(search, status), v);
    SelectMembers(cache, Full(search, status), v);
  }

  /** The converse fails: the first filter does not search the buyer. */
  lemma {:induction false} InitialIgnoresBuyer(buyer: string, v: Record)
    requires buyer != [] && v == map["Potential_Buyer_1" := Str(buyer)]
    requires !Contains("n/a", ToLower(buyer))
    ensures Keep(v, buyer, ALL)
    ensures !InitialKeep(v, buyer, ALL)
  {
    assert Present(v, BuyerKeys()[0]);
    assert GetFieldValue(v, BuyerKeys()) == buyer;
    assert Contains(Buyer(v), ToLower(buyer));
    assert !Present(v, DescriptionKeys()[0]) && !Present(v, DescriptionKeys()[1]) && !Present(v, DescriptionKeys()[2]);
    assert GetFieldValue(v, DescriptionKeys()) == NOT_AVAILABLE;
    NotAvailableLower();
  }

  lemma {:induction false} NotAvailableLower()
    ensures ToLower(NOT_AVAILABLE) == "n/a"
  {
    assert NOT_AVAILABLE == ['N'] + "/A";
    assert "/A" == ['/'] + "A";
  }

  /** The error `filterAndChunkData` leaves: the "no results" message exactly when
      nothing matched and some filter is in force (`term.trim() !== ''` or a status
      other than "All"); otherwise the error is cleared. */
  function FilterError(n: nat, term: string, status: string): (e: Notice)
    ensures e == NoMatch <==> n == 0 && (Trim(term) != [] || status != ALL)
    ensures e != NoMatch ==> e == NoNotice
  {
    if n == 0 && (!AllWhitespace(term) || status != ALL) then NoMatch else NoNotice
  }

  /** The error `fetchData` leaves after a successful fetch. */
  function LoadedError(cacheSize: nat, filteredSize: nat, search: string, status: string): (e: Notice)
    ensures e == NoData <==> cacheSize == 0
    ensures e == NoMatch <==> cacheSize > 0 && filteredSize == 0 && (Trim(search) != [] || status != ALL)
    ensures e == NoNotice || e == NoData || e == NoMatch
    ensures cacheSize > 0 ==> e == FilterError(filteredSize, search, status)
  {
    if cacheSize == 0 then NoData
    else if filteredSize == 0 && (!AllWhitespace(search) || status != ALL) then NoMatch
    else NoNotice
  }

  // ---------------------------------------------------------------------------
  // Paging

  /** Loading one more page keeps the chunk a prefix of the filtered list, one page
      longer or up to its end. */
  lemma {:induction false} ChunkGrows(filtered: seq<Record>, chunk: seq<Record>, page: nat)
    requires chunk <= filtered && |chunk| == Min(page * PAGE, |filtered|)
    requires page * PAGE < |filtered|
    ensures var next := chunk + filtered[page * PAGE..Min(page * PAGE + PAGE, |filtered|)];
      next <= filtered && |next| == Min((page + 1) * PAGE, |filtered|)
  {
    var start := page * PAGE;
    assert chunk == filtered[..start];
    PrefixThenSlice(filtered, start, Min(start + PAGE, |filtered|));
  }

  // ---------------------------------------------------------------------------
  // Replies

  /** `data?.matches || data?.vendors || data?.data || data?.products || data?.results
      || data`, then `[]` unless that is an array. */
  function FetchKeys(): seq<string> { ["matches", "vendors", "data", "products", "results"] }

  function FetchEnvelope(body: Json): (items: seq<Record>)
    ensures body.JArray? ==> items == body.items
    ensures !body.JArray? && !body.JObject? ==> items == []
    ensures (forall i :: 0 <= i < |FetchKeys()| ==> !TruthyMember(body, FetchKeys()[i])) ==>
      items == ItemsOrEmpty(body)
  {
    match FirstTruthyMember(body, FetchKeys())
    case Some(j) => ItemsOrEmpty(j)
    case None => ItemsOrEmpty(body)
  }

  /** When a member is truthy, the cache is filled from the first truthy one: its items
      when it is an array, nothing otherwise. */
  lemma {:induction false} FetchEnvelopeTakesFirst(body: Json, i: int)
    requires FirstTruthyAt(body, FetchKeys(), i)
    ensures FetchEnvelope(body) == ItemsOrEmpty(Member(body, FetchKeys()[i]).value)
  {
    FirstTruthyMemberAt(body, FetchKeys(), i);
  }

  /** `response.ok`: a reply with a status in 200..299. */
  predicate IsOkReply(reply: Reply) {
    reply.Response? && IsOk(reply.status)
  }

  /** The message of the error a failed fetch throws: the thrown one, or the status line
      of a reply that is not ok. */
  function FetchFailure(reply: Reply): (m: string)
    ensures reply.Thrown? ==> m == reply.message
    ensures reply.Response? ==> |m| > |reply.statusText| && m[|m| - |reply.statusText|..] == reply.statusText
  {
    match reply
    case Thrown(m) => m
    case Response(status, statusText, _) => "Failed to fetch data: " + IntToString(status) + " " + statusText
  }

  /** The outcome of the upload `fetch`: the status, its text, the raw body and its
      parse as JSON (`None` when `JSON.parse` throws); or a thrown error. */
  datatype UploadReply =
    | Uploaded(status: int, statusText: string, text: string, parsed: Option<Json>)
    | UploadThrown(message: string)

  /** `String(x)` for a decoded JSON value, as `new Error(x)` uses it. */
  function JsonToString(j: Json): string {
    match j
    case JString(s) => s
    case JLiteral(text, _) => text
    case JObject(_) => "[object Object]"
    case JArray(items) => Join(seq(|items|, _ => "[object Object]"), ",")
  }

  /** The message of a failed upload: the body's JSON `message` if it is truthy; the raw
      body when it is not JSON and not empty; else the status line. */
  function UploadFailure(status: int, statusText: string, text: string, parsed: Option<Json>): (m: string)
    ensures parsed.Some? && Member(parsed.value, "message").Some? && JsonTruthy(Member(parsed.value, "message").value)
      ==> m == JsonToString(Member(parsed.value, "message").value)
    ensures parsed.None? && text != [] ==> m == text
    ensures (parsed.None? && text == []) || (parsed.Some? &&
      (Member(parsed.value, "message").None? || !JsonTruthy(Member(parsed.value, "message").value)))
      ==> m == "Upload failed: " + IntToString(status) + " " + statusText
  {
    var fallback := "Upload failed: " + IntToString(status) + " " + statusText;
    match parsed
    case None => if text != [] then text else fallback
    case Some(j) =>
      match Member(j, "message")
      case Some(msg) => if JsonTruthy(msg) then JsonToString(msg) else fallback
      case None => fallback
  }

  // ---------------------------------------------------------------------------
  // State

  /** The module-level cache, shared by every mount of the screen. */
  class ProductCache {
    var vendors: seq<Record>
    var loaded: bool

    constructor()
      ensures vendors == [] && !loaded
    {
      vendors := [];
      loaded := false;
    }
  }

  /** The screen's state. `filtered` is `filteredVendorsRef.current`; `reportedCount` is
      the last count handed to `setTotalProductsCount`; `refreshScheduled` is the pending
      refetch timer of an upload. */
  class ProductsScreen {
    var allVendors: seq<Record>
    var chunk: seq<Record>
    var loading: bool
    var searchTerm: string
    var error: Notice
    var page: nat
    var hasMore: bool
    var statusFilter: string
    var filtered: seq<Record>
    var reportedCount: nat
    var refreshScheduled: bool
    /** The search term the scheduled refetch was created with: the timer's callback
        closes over the `searchTerm` of the render whose upload handler ran. */
    var refreshTerm: string

    /** The paging invariant: the chunk is a prefix of the filtered list and, while more
        can be loaded, it holds exactly the first `page` pages of it. */
    ghost predicate Valid()
      reads this
    {
      page >= 1 && chunk <= filtered && (hasMore ==> |chunk| == Min(page * PAGE, |filtered|))
    }

    constructor(cache: ProductCache)
      ensures allVendors == cache.vendors && chunk == [] && !loading && searchTerm == []
      ensures error == NoNotice && page == 1 && hasMore && statusFilter == ALL && filtered == []
      ensures reportedCount == 0 && !refreshScheduled && refreshTerm == []
      ensures Valid()
    {
      allVendors := cache.vendors;
      chunk := [];
      loading := false;
      searchTerm := [];
      error := NoNotice;
      page := 1;
      hasMore := true;
      statusFilter := ALL;
      filtered := [];
      reportedCount := 0;
      refreshScheduled := false;
      refreshTerm := [];
    }

    /** Typing in the search box. The status filter has no control on the screen, so it
        keeps its initial "All". */
    method SetSearchTerm(s: string)
      modifies this
      ensures searchTerm == s
      ensures allVendors == old(allVendors) && chunk == old(chunk) && loading == old(loading)
      ensures error == old(error) && page == old(page) && hasMore == old(hasMore)
      ensures statusFilter == old(statusFilter) && filtered == old(filtered)
      ensures reportedCount == old(reportedCount) && refreshScheduled == old(refreshScheduled)
      ensures refreshTerm == old(refreshTerm)
    {
      searchTerm := s;
    }

    /** The first page of a freshly filtered list `f`, with the error `e`. */
    method ShowFirstPage(f: seq<Record>, e: Notice)
      modifies this
      ensures filtered == f && page == 1 && chunk == f[..Min(PAGE, |f|)] && hasMore == (|f| > PAGE)
      ensures error == e && Valid()
      ensures allVendors == old(allVendors) && loading == old(loading) && searchTerm == old(searchTerm)
      ensures statusFilter == old(statusFilter) && reportedCount == old(reportedCount)
      ensures refreshScheduled == old(refreshScheduled)
      ensures refreshTerm == old(refreshTerm)
    {
      filtered := f;
      page := 1;
      chunk := f[..Min(PAGE, |f|)];
      hasMore := |f| > PAGE;
      error := e;
    }

    /** `filterAndChunkData(term, status)` over the cache contents `vendors`. */
    method FilterAndChunk(vendors: seq<Record>, term: string, status: string)
      modifies this
      ensures filtered == Filtered(vendors, term, status)
      ensures page == 1 && chunk == filtered[..Min(PAGE, |filtered|)] && hasMore == (|filtered| > PAGE)
      ensures error == FilterError(|filtered|, term, status)
      ensures Valid()
      ensures allVendors == old(allVendors) && loading == old(loading) && searchTerm == old(searchTerm)
      ensures statusFilter == old(statusFilter) && reportedCount == old(reportedCount)
      ensures refreshScheduled == old(refreshScheduled)
      ensures refreshTerm == old(refreshTerm)
    {
      var f := Filtered(vendors, term, status);
      ShowFirstPage(f, FilterError(|f|, term, status));
    }

    /** `loadMoreData`: nothing while loading or when there is no more; else the next
        page is appended, or `hasMore` is cleared when the list is exhausted. */
    method LoadMoreData()
      requires Valid()
      modifies this
      ensures Valid()
      ensures old(loading) || !old(hasMore) ==>
        chunk == old(chunk) && page == old(page) && hasMore == old(hasMore)
      ensures !old(loading) && old(hasMore) && old(page) * PAGE < |filtered| ==>
        && chunk == old(chunk) + filtered[old(page) * PAGE..Min(old(page) * PAGE + PAGE, |filtered|)]
        && chunk == filtered[..Min((old(page) + 1) * PAGE, |filtered|)]
        && page == old(page) + 1
        && hasMore == (old(page) * PAGE + PAGE < |filtered|)
      ensures !old(loading) && old(hasMore) && old(page) * PAGE >= |filtered| ==>
        chunk == old(chunk) && page == old(page) && !hasMore
      ensures filtered == old(filtered) && allVendors == old(allVendors) && loading == old(loading)
      ensures error == old(error) && searchTerm == old(searchTerm) && statusFilter == old(statusFilter)
      ensures reportedCount == old(reportedCount) && refreshScheduled == old(refreshScheduled)
      ensures refreshTerm == old(refreshTerm)
    {
      if loading || !hasMore {
        return;
      }
      var start := page * PAGE;
      if start < |filtered| {
        ChunkGrows(filtered, chunk, page);
        chunk := chunk + filtered[start..Min(start + PAGE, |filtered|)];
        page := page + 1;
        hasMore := start + PAGE < |filtered|;
      } else {
        hasMore := false;
      }
    }

    /** The view state a failed fetch leaves. The cache is not touched. */
    method FetchFailed(message: string)
      modifies this
      ensures error == FetchError(message) && allVendors == [] && chunk == [] && !hasMore
      ensures page == old(page) && loading == old(loading) && filtered == old(filtered)
      ensures searchTerm == old(searchTerm) && statusFilter == old(statusFilter)
      ensures reportedCount == old(reportedCount) && refreshScheduled == old(refreshScheduled)
      ensures refreshTerm == old(refreshTerm)
    {
      error := FetchError(message);
      allVendors := [];
      chunk := [];
      hasMore := false;
    }

    /** The state a successful fetch of `data` leaves: the cache replaced and marked
        loaded, its size reported, and the first page of the description-only filter. */
    method FetchSucceeded(cache: ProductCache, search: string, data: seq<Record>)
      modifies this, cache
      ensures cache.vendors == data && cache.loaded
      ensures allVendors == data && reportedCount == |data|
      ensures filtered == InitiallyFiltered(data, search, statusFilter)
      ensures chunk == filtered[..Min(PAGE, |filtered|)] && hasMore == (|filtered| > PAGE)
      ensures error == LoadedError(|data|, |filtered|, search, statusFilter)
      ensures page == old(page) && loading == old(loading) && searchTerm == old(searchTerm)
      ensures statusFilter == old(statusFilter) && refreshScheduled == old(refreshScheduled)
      ensures refreshTerm == old(refreshTerm)
    {
      cache.vendors := data;
      allVendors := data;
      cache.loaded := true;
      reportedCount := |data|;
      var initial := InitiallyFiltered(data, search, statusFilter);
      var p := page;
      ShowFirstPage(initial, LoadedError(|data|, |initial|, search, statusFilter));
      page := p;
    }

    /** `fetchData(search, isRefresh)`, run to completion with its reply: nothing when
        the cache is loaded and this is not a refresh, else `Load`. */
    method FetchData(cache: ProductCache, search: string, isRefresh: bool, reply: Reply)
      requires Valid()
      modifies this, cache
      ensures Valid()
      ensures old(cache.loaded) && !isRefresh ==>
        && cache.vendors == old(cache.vendors) && cache.loaded
        && allVendors == old(allVendors) && chunk == old(chunk) && loading == old(loading)
        && error == old(error) && page == old(page) && hasMore == old(hasMore)
        && filtered == old(filtered) && reportedCount == old(reportedCount)
      ensures !old(cache.loaded) || isRefresh ==>
        && page == 1 && !loading
        && cache.vendors == (if IsOkReply(reply) then FetchEnvelope(reply.body) else old(cache.vendors))
        && cache.loaded == (IsOkReply(reply) || old(cache.loaded))
      ensures (!old(cache.loaded) || isRefresh) && !IsOkReply(reply) ==>
        && allVendors == [] && chunk == [] && !hasMore
        && filtered == old(filtered) && reportedCount == old(reportedCount)
        && error == FetchError(FetchFailure(reply))
      ensures (!old(cache.loaded) || isRefresh) && IsOkReply(reply) ==>
        && allVendors == cache.vendors && reportedCount == |cache.vendors|
        && filtered == InitiallyFiltered(cache.vendors, search, statusFilter)
        && chunk == filtered[..Min(PAGE, |filtered|)] && hasMore == (|filtered| > PAGE)
        && error == LoadedError(|cache.vendors|, |filtered|, search, statusFilter)
      ensures searchTerm == old(searchTerm) && statusFilter == old(statusFilter)
      ensures refreshScheduled == old(refreshScheduled)
      ensures refreshTerm == old(refreshTerm)
    {
      if !cache.loaded || isRefresh {
        Load(cache, search, reply);
      }
    }

    /** The request of `fetchData` and what its reply leaves: the first page of the
        fetched records, or the error with the list emptied. */
    method Load(cache: ProductCache, search: string, reply: Reply)
      modifies this, cache
      ensures Valid() && page == 1 && !loading
      ensures cache.vendors == (if IsOkReply(reply) then FetchEnvelope(reply.body) else old(cache.vendors))
      ensures cache.loaded == (IsOkReply(reply) || old(cache.loaded))
      ensures !IsOkReply(reply) ==>
        && allVendors == [] && chunk == [] && !hasMore
        && filtered == old(filtered) && reportedCount == old(reportedCount)
        && error == FetchError(FetchFailure(reply))
      ensures IsOkReply(reply) ==>
        && allVendors == cache.vendors && reportedCount == |cache.vendors|
        && filtered == InitiallyFiltered(cache.vendors, search, statusFilter)
        && chunk == filtered[..Min(PAGE, |filtered|)] && hasMore == (|filtered| > PAGE)
        && error == LoadedError(|cache.vendors|, |filtered|, search, statusFilter)
      ensures searchTerm == old(searchTerm) && statusFilter == old(statusFilter)
      ensures refreshScheduled == old(refreshScheduled)
      ensures refreshTerm == old(refreshTerm)
    {
      // `loading` is set while the request runs; the run is modelled as one step.
      page := 1;
      if IsOkReply(reply) {
        FetchSucceeded(cache, search, FetchEnvelope(reply.body));
      } else {
        FetchFailed(FetchFailure(reply));
      }
      loading := false;
    }

    /** `handleCSVUpload`, run to completion with its reply. A successful upload marks
        the cache stale and schedules the refetch (`RefreshTimerFires`). */
    method HandleCsvUpload(cache: ProductCache, hasFile: bool, reply: UploadReply)
      requires Valid()
      modifies this, cache
      ensures Valid()
      ensures !hasFile ==>
        && error == old(error) && cache.loaded == old(cache.loaded)
        && refreshScheduled == old(refreshScheduled) && loading == old(loading)
      ensures hasFile ==> !loading
      ensures hasFile && reply.UploadThrown? ==>
        error == UploadError(reply.message) && cache.loaded == old(cache.loaded)
        && refreshScheduled == old(refreshScheduled)
      ensures hasFile && reply.Uploaded? && !IsOk(reply.status) ==>
        && error == UploadError(UploadFailure(reply.status, reply.statusText, reply.text, reply.parsed))
        && cache.loaded == old(cache.loaded) && refreshScheduled == old(refreshScheduled)
      ensures hasFile && reply.Uploaded? && IsOk(reply.status) ==>
        error == NoNotice && !cache.loaded && refreshScheduled && refreshTerm == old(searchTerm)
      ensures !(hasFile && reply.Uploaded? && IsOk(reply.status)) ==> refreshTerm == old(refreshTerm)
      ensures cache.vendors == old(cache.vendors)
      ensures allVendors == old(allVendors) && chunk == old(chunk) && page == old(page)
      ensures hasMore == old(hasMore) && filtered == old(filtered) && searchTerm == old(searchTerm)
      ensures statusFilter == old(statusFilter) && reportedCount == old(reportedCount)
    {
      if !hasFile {
        return;
      }
      loading := true;
      error := NoNotice;
      match reply {
        case UploadThrown(m) =>
          error := UploadError(m);
        case Uploaded(status, statusText, text, parsed) =>
          if !IsOk(status) {
            error := UploadError(UploadFailure(status, statusText, text, parsed));
          } else {
            cache.loaded := false;
            refreshScheduled := true;
            refreshTerm := searchTerm;
          }
      }
      loading := false;
    }

    /** The upload's refetch timer: `fetchData(term, true)` with the term captured when
        the upload scheduled it; the whole outcome of `Load`. */
    method RefreshTimerFires(cache: ProductCache, reply: Reply)
      requires Valid()
      modifies this, cache
      ensures Valid() && !refreshScheduled
      ensures !old(refreshScheduled) ==> unchanged(this) && unchanged(cache)
      ensures old(refreshScheduled) ==>
        && page == 1 && !loading
        && cache.vendors == (if IsOkReply(reply) then FetchEnvelope(reply.body) else old(cache.vendors))
        && cache.loaded == (IsOkReply(reply) || old(cache.loaded))
        && searchTerm == old(searchTerm) && statusFilter == old(statusFilter) && refreshTerm == old(refreshTerm)
      ensures old(refreshScheduled) && !IsOkReply(reply) ==>
        && allVendors == [] && chunk == [] && !hasMore
        && filtered == old(filtered) && reportedCount == old(reportedCount)
        && error == FetchError(FetchFailure(reply))
      ensures old(refreshScheduled) && IsOkReply(reply) ==>
        && allVendors == cache.vendors && reportedCount == |cache.vendors|
        && filtered == InitiallyFiltered(cache.vendors, old(refreshTerm), statusFilter)
        && chunk == filtered[..Min(PAGE, |filtered|)] && hasMore == (|filtered| > PAGE)
        && error == LoadedError(|cache.vendors|, |filtered|, old(refreshTerm), statusFilter)
    {
      if refreshScheduled {
        refreshScheduled := false;
        FetchData(cache, refreshTerm, true, reply);
      }
    }

    /** The effect run when the screen is visible and its inputs change: fetch when the
        cache is not loaded, else rebuild an empty chunk from the cache, else nothing. */
    method Shown(cache: ProductCache, reply: Reply)
      requires Valid()
      modifies this, cache
      ensures Valid()
      ensures searchTerm == old(searchTerm) && statusFilter == old(statusFilter)
      ensures refreshScheduled == old(refreshScheduled) && refreshTerm == old(refreshTerm)
      ensures !old(cache.loaded) ==>
        && page == 1 && !loading
        && cache.vendors == (if IsOkReply(reply) then FetchEnvelope(reply.body) else old(cache.vendors))
        && cache.loaded == IsOkReply(reply)
      ensures !old(cache.loaded) && !IsOkReply(reply) ==>
        && allVendors == [] && chunk == [] && !hasMore
        && filtered == old(filtered) && reportedCount == old(reportedCount)
        && error == FetchError(FetchFailure(reply))
      ensures !old(cache.loaded) && IsOkReply(reply) ==>
        && allVendors == cache.vendors && reportedCount == |cache.vendors|
        && filtered == InitiallyFiltered(cache.vendors, searchTerm, statusFilter)
        && chunk == filtered[..Min(PAGE, |filtered|)] && hasMore == (|filtered| > PAGE)
        && error == LoadedError(|cache.vendors|, |filtered|, searchTerm, statusFilter)
      ensures old(cache.loaded) && old(chunk) == [] ==>
        && unchanged(cache)
        && filtered == Filtered(cache.vendors, searchTerm, statusFilter)
        && page == 1 && chunk == filtered[..Min(PAGE, |filtered|)] && hasMore == (|filtered| > PAGE)
        && error == FilterError(|filtered|, searchTerm, statusFilter)
        && allVendors == old(allVendors) && loading == old(loading) && reportedCount == old(reportedCount)
      ensures old(cache.loaded) && old(chunk) != [] ==> unchanged(this) && unchanged(cache)
    {
      if !cache.loaded {
        FetchData(cache, searchTerm, false, reply);
      } else if |chunk| == 0 {
        FilterAndChunk(cache.vendors, searchTerm, statusFilter);
      }
    }

    /** The debounced effect after the term or the status changed: refilter a non-empty
        cache, with the whole outcome of `filterAndChunkData`; nothing for an empty one. */
    method DebounceElapsed(cache: ProductCache)
      requires Valid()
      modifies this
      ensures Valid()
      ensures |cache.vendors| > 0 ==>
        && filtered == Filtered(cache.vendors, searchTerm, statusFilter)
        && page == 1 && chunk == filtered[..Min(PAGE, |filtered|)] && hasMore == (|filtered| > PAGE)
        && error == FilterError(|filtered|, searchTerm, statusFilter)
        && allVendors == old(allVendors) && loading == old(loading) && searchTerm == old(searchTerm)
        && statusFilter == old(statusFilter) && reportedCount == old(reportedCount)
        && refreshScheduled == old(refreshScheduled) && refreshTerm == old(refreshTerm)
      ensures |cache.vendors| == 0 ==> unchanged(this)
    {
      if |cache.vendors| > 0 {
        FilterAndChunk(cache.vendors, searchTerm, statusFilter);
      }
    }
  }
}
