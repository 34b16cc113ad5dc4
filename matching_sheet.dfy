/** The matching board (src/components/MatchingSheet.jsx): the polled feed of customer
    requests, their projection into groups of matched vendor items, the free-text
    group filter, the per-group response statistics, the placeholder vendor response,
    RFQ (request-for-quote) dispatch with its per-key status map, the per-row vendor
    selection, and the checks made before a price offer is sent. */
module MatchingSheet {
  import opened Wrappers
  import opened Text
  import opened Js
  import opened Config
  import opened Numbers
  import opened Sequences

  // ---------------------------------------------------------------------------
  // The feed

  /** One customer request: its own fields and its `products`, the matched vendor
      items; `None` stands for a missing or `null` list. */
  datatype Request = Request(fields: Record, products: Option<seq<Record>>)

  /** The decoded body of the requests endpoint: a list of requests, an object, or any
      other JSON value, of which only the truthiness matters. */
  datatype Payload =
    | PList(requests: seq<Request>)
    | PObject(members: map<string, Payload>)
    | PScalar(truthy: bool)

  predicate PayloadTruthy(p: Payload) {
    !p.PScalar? || p.truthy
  }

  /** `data?.data || data || []`. */
  function Envelope(p: Payload): (e: Payload)
    ensures p.PList? ==> e == p
    ensures !PayloadTruthy(p) ==> e == PList([])
    ensures PayloadTruthy(e)
  {
    if p.PObject? && "data" in p.members && PayloadTruthy(p.members["data"]) then p.members["data"]
    else if PayloadTruthy(p) then p
    else PList([])
  }

  /** What one poll of the endpoint gives: a reply with its status line, its raw text
      and its decoded body, or a thrown error (a network failure, or a body that is
      not JSON) with its message. */
  datatype FeedReply =
    | Answered(status: int, statusText: string, text: string, body: Payload)
    | Failed(message: string)

  /** Why a poll failed: a status outside 200-299, a thrown error, or an envelope that
      is not a list, on which `reverse` throws. */
  datatype Cause = HttpFailure(status: int, statusText: string, text: string) | Threw(message: string) | NotAList

  /** The outcome of one poll: the requests newest first, or the failure. */
  datatype Feed = Loaded(requests: seq<Request>) | Rejected(cause: Cause)

  /** The try block of `fetchMatchingData`. */
  function FeedOf(reply: FeedReply): Feed {
    match reply
    case Failed(m) => Rejected(Threw(m))
    case Answered(status, statusText, text, body) =>
      if !IsOk(status) then Rejected(HttpFailure(status, statusText, text))
      else
        var e := Envelope(body);
        if e.PList? then Loaded(Reverse(e.requests)) else Rejected(NotAList)
  }

  /** An ok reply carrying a list, bare or under `data`, loads that list reversed, so
      the request the server lists last comes first. */
  lemma {:induction false} FeedReversesList(status: int, statusText: string, text: string, body: Payload, rs: seq<Request>)
    requires IsOk(status)
    requires body == PList(rs) || (body.PObject? && "data" in body.members && body.members["data"] == PList(rs))
    ensures FeedOf(Answered(status, statusText, text, body)) == Loaded(Reverse(rs))
    ensures rs != [] ==> FeedOf(Answered(status, statusText, text, body)).requests[0] == rs[|rs| - 1]
    ensures Reverse(FeedOf(Answered(status, statusText, text, body)).requests) == rs
  {
    ReverseTwice(rs);
  }

  /** A falsy body (`null`, `false`, `0`, `""`) is an empty feed; any other body that
      is not a list and has no truthy list under `data` is an error. */
  lemma {:induction false} FeedOfOtherBodies(status: int, statusText: string, text: string, body: Payload)
    requires IsOk(status)
    ensures !PayloadTruthy(body) ==> FeedOf(Answered(status, statusText, text, body)) == Loaded([])
    ensures body == PScalar(true) ==> FeedOf(Answered(status, statusText, text, body)) == Rejected(NotAList)
    ensures body.PObject? && ("data" !in body.members || !PayloadTruthy(body.members["data"]))
            ==> FeedOf(Answered(status, statusText, text, body)) == Rejected(NotAList)
  {
    if !PayloadTruthy(body) {
      assert Reverse<Request>([]) == [];
    }
  }

  /** A status outside 200-299 or a thrown error never loads anything. */
  lemma {:induction false} FeedFailures(reply: FeedReply)
    ensures reply.Failed? ==> FeedOf(reply) == Rejected(Threw(reply.message))
    ensures reply.Answered? && !IsOk(reply.status)
            ==> FeedOf(reply) == Rejected(HttpFailure(reply.status, reply.statusText, reply.text))
  {
  }

  /** The set of the first `n` positions, which the board highlights as new. */
  function FirstIndices(n: nat): (ids: set<nat>)
    ensures forall i: nat :: i in ids <==> i < n
  {
    if n == 0 then {} else FirstIndices(n - 1) + {n - 1}
  }

  /** `n` positions are highlighted. */
  lemma {:induction false} FirstIndicesSize(n: nat)
    ensures |FirstIndices(n)| == n
  {
    if n > 0 {
      var below := FirstIndices(n - 1);
      FirstIndicesSize(n - 1);
      assert FirstIndices(n) == below + {n - 1};
      assert n - 1 !in below;
    }
  }

  /** The loop of `fetchMatchingData` that collects the new positions. */
  method NewEntryIds(newCount: nat) returns (ids: set<nat>)
    ensures ids == FirstIndices(newCount)
  {
    ids := {};
    var i := 0;
    while i < newCount
      invariant 0 <= i <= newCount
      invariant ids == FirstIndices(i)
    {
      ids := ids + {i};
      i := i + 1;
    }
  }

  /** What the board shows in its error banner. */
  datatype Notice = NoNotice | LoadFailed(cause: Cause)

  const LOAD_FAILED_PREFIX: string := "Failed to load data. Ensure API is running and URL is correct. Error: "

  /** `err.message` of each failure; the third is the engine's `TypeError` text. */
  function CauseMessage(c: Cause): (m: string)
    ensures c.Threw? ==> m == c.message
    ensures c.HttpFailure? ==> |m| > |c.text| && m[|m| - |c.text|..] == c.text
    ensures !c.Threw? ==> m != []
  {
    match c
    case HttpFailure(status, statusText, text) =>
      "Failed to fetch data: " + IntToString(status) + " " + statusText + ". Response: " + text
    case Threw(m) => m
    case NotAList => "newMatchingData.reverse is not a function"
  }

  /** The banner text, empty exactly when there is no error. */
  function Wording(n: Notice): (text: string)
    ensures text == [] <==> n == NoNotice
  {
    match n
    case NoNotice => []
    case LoadFailed(c) => LOAD_FAILED_PREFIX + CauseMessage(c)
  }

  // ---------------------------------------------------------------------------
  // Groups and the placeholder vendor response

  const YES: string := "YES"
  const MATCHED: string := "Matched"
  const AWAITING: string := "Awaiting"
  const PRICE_KEY: string := "Vendor_Price"
  const QUANTITY_KEY: string := "Quantity"
  const CONTACT_KEY: string := "Potential_Buyer_1_Contact_Detail"
  const ID_KEY: string := "Id"
  const VENDOR_NAME_KEY: string := "Potential_Buyer_1"
  const RFQ_STATUS_COLUMN: string := "RFQ Status"

  /** The vendor response the board shows in place of a live one. */
  datatype MockResponse = MockResponse(
    productAvailable: JsValue,
    vendorPrice: JsValue,
    availableQty: JsValue,
    canDeliver: JsValue,
    finalStatus: string,
    vendorPhone: JsValue)

  /** The placeholder response for a vendor item with the given price, quantity and
      contact fields: available and matched exactly when it carries a price,
      deliverable exactly when its quantity is above zero. */
  function MockOf(price: JsValue, quantity: JsValue, contact: JsValue): (m: MockResponse)
    ensures m.productAvailable == Str(YES) <==> Truthy(price)
    ensures m.productAvailable != Str(YES) ==> m.productAvailable == Null
    ensures m.finalStatus == MATCHED <==> Truthy(price)
    ensures m.finalStatus == MATCHED || m.finalStatus == AWAITING
    ensures Truthy(m.vendorPrice) <==> Truthy(price)
    ensures m.canDeliver == Str(YES) <==> GreaterThanZero(quantity)
    ensures m.vendorPhone == SafeValue(contact)
  {
    MockResponse(
      if Truthy(price) then Str(YES) else Null,
      Or(price, Null),
      Or(quantity, Null),
      if GreaterThanZero(quantity) then Str(YES) else Null,
      if Truthy(price) then MATCHED else AWAITING,
      SafeValue(contact))
  }

  /** `mockVendorResponse` of a vendor item. */
  function MockFor(item: Record): (m: MockResponse)
    ensures m.finalStatus == MATCHED <==> Truthy(Get(item, PRICE_KEY))
    ensures m.finalStatus != MATCHED ==> m.finalStatus == AWAITING && m.productAvailable == Null
    ensures m.canDeliver == Str(YES) <==> GreaterThanZero(Get(item, QUANTITY_KEY))
    ensures !IsMissing(m.vendorPhone)
  {
    MockOf(Get(item, PRICE_KEY), Get(item, QUANTITY_KEY), Get(item, CONTACT_KEY))
  }

  /** The three price-driven fields always agree with one another. */
  lemma {:induction false} MockFieldsAgree(item: Record)
    ensures MockFor(item).productAvailable == Str(YES) <==> MockFor(item).finalStatus == MATCHED
    ensures MockFor(item).productAvailable == Str(YES) <==> Truthy(MockFor(item).vendorPrice)
  {
  }

  /** A quantity written as digits can be delivered exactly when it is not zero. */
  lemma {:induction false} DeliverableQuantity(item: Record, q: string)
    requires Get(item, QUANTITY_KEY) == Str(q) && q != [] && AllDigits(q)
    ensures MockFor(item).canDeliver == Str(YES) <==> NonZeroDigitIn(q)
  {
    DigitsSign(q);
  }

  /** A vendor item inside a group: its own fields with the parent's copied over them,
      and its placeholder response. */
  datatype Vendor = Vendor(fields: Record, mock: MockResponse)

  /** One row of the board. */
  datatype Group = Group(
    mainRow: Record,
    vendors: seq<Vendor>,
    customerName: JsValue,
    customerEmail: JsValue,
    customerWhatsapp: JsValue,
    productNeeded: JsValue,
    totalQuantity: JsValue,
    createdAt: JsValue)

  /** `request.products || []`. */
  function ProductsOf(r: Request): seq<Record> {
    if r.products.Some? then r.products.value else []
  }

  /** `safeValue(request.product_req) || 'N/A'`; `safeValue` is never falsy, so the
      fallback is never taken. */
  function ProductNeeded(req: Record): (v: JsValue)
    ensures v == SafeValue(Get(req, "product_req"))
  {
    Or(SafeValue(Get(req, "product_req")), Str(NOT_AVAILABLE))
  }

  /** The parent fields every vendor item of a request receives. */
  function ParentFields(req: Record): Record {
    map[
      "matchId" := Get(req, "matchId"),
      "customerId" := Get(req, "customerId"),
      "customerName" := SafeValue(Get(req, "customerName")),
      "customerEmail" := SafeValue(Get(req, "customerEmail")),
      "customerWhatsapp" := SafeValue(Get(req, "customerNumber")),
      "productNeeded" := ProductNeeded(req),
      "totalQuantity" := SafeValue(Get(req, "qty"))]
  }

  function ParentKeys(): set<string> {
    {"matchId", "customerId", "customerName", "customerEmail", "customerWhatsapp", "productNeeded", "totalQuantity"}
  }

  lemma {:induction false} ParentFieldKeys(req: Record)
    ensures ParentFields(req).Keys == ParentKeys()
  {
  }

  /** `{ ...productMatch, ...parent, mockVendorResponse }`. */
  function VendorOf(item: Record, req: Record): Vendor {
    Vendor(item + ParentFields(req), MockFor(item))
  }

  /** The fixed projection of a request shown in the collapsed row. */
  function MainRow(req: Record): (row: Record)
    ensures row.Keys == {"Match_ID", "Customer_Name", "Whatsapp_Number", "Product_Needed", "Qty_Needed", RFQ_STATUS_COLUMN}
    ensures forall k :: k in row ==> !IsMissing(row[k])
    ensures row[RFQ_STATUS_COLUMN] == Str("0/0")
    ensures !IsMissing(Get(req, "matchId")) ==> row["Match_ID"] == Get(req, "matchId")
  {
    map[
      "Match_ID" := SafeValue(Get(req, "matchId")),
      "Customer_Name" := SafeValue(Get(req, "customerName")),
      "Whatsapp_Number" := SafeValue(Get(req, "customerNumber")),
      "Product_Needed" := ProductNeeded(req),
      "Qty_Needed" := SafeValue(Get(req, "qty")),
      RFQ_STATUS_COLUMN := Str("0/0")]
  }

  /** One request's group: one vendor per matched item, in order. */
  function GroupOf(r: Request): (g: Group)
    ensures |g.vendors| == |ProductsOf(r)|
    ensures forall i :: 0 <= i < |g.vendors| ==> g.vendors[i] == VendorOf(ProductsOf(r)[i], r.fields)
  {
    var items := ProductsOf(r);
    Group(
      MainRow(r.fields),
      seq(|items|, i requires 0 <= i < |items| => VendorOf(items[i], r.fields)),
      SafeValue(Get(r.fields, "customerName")),
      SafeValue(Get(r.fields, "customerEmail")),
      SafeValue(Get(r.fields, "customerNumber")),
      ProductNeeded(r.fields),
      SafeValue(Get(r.fields, "qty")),
      SafeValue(Get(r.fields, "createdAt")))
  }

  /** `groupedMatchingData`: one group per request, in request order. */
  function Grouped(rs: seq<Request>): (gs: seq<Group>)
    ensures |gs| == |rs|
    ensures forall i :: 0 <= i < |rs| ==> gs[i] == GroupOf(rs[i])
  {
    seq(|rs|, i requires 0 <= i < |rs| => GroupOf(rs[i]))
  }

  /** The collapsed row always reads "0/0" in its status column, whatever the vendors'
      responses, and every displayed field of a group is present. */
  lemma {:induction false} GroupRowPlaceholder(r: Request)
    ensures Get(GroupOf(r).mainRow, RFQ_STATUS_COLUMN) == Str("0/0")
    ensures !IsMissing(GroupOf(r).customerName) && !IsMissing(GroupOf(r).customerWhatsapp)
    ensures !IsMissing(GroupOf(r).productNeeded) && !IsMissing(Get(GroupOf(r).mainRow, "Match_ID"))
  {
  }

  /** A vendor item keeps every field of its own that the parent does not overwrite,
      and carries the parent's fields. */
  lemma {:induction false} VendorFields(r: Request, i: nat, k: string)
    requires i < |ProductsOf(r)|
    ensures k !in ParentKeys() ==> Get(GroupOf(r).vendors[i].fields, k) == Get(ProductsOf(r)[i], k)
    ensures k in ParentKeys() ==> Get(GroupOf(r).vendors[i].fields, k) == Get(ParentFields(r.fields), k)
    ensures GroupOf(r).vendors[i].mock == MockFor(ProductsOf(r)[i])
  {
    VendorOfGet(ProductsOf(r)[i], r.fields, k);
  }

  /** The parent keys all start with a lower-case letter. */
  lemma {:induction false} CapitalKeyNotParent(k: string)
    requires k != [] && 'A' <= k[0] <= 'Z'
    ensures k !in ParentKeys()
  {
    forall p | p in ParentKeys()
      ensures p != [] && 'a' <= p[0] <= 'z'
    {
    }
  }

  lemma {:induction false} VendorOfGet(item: Record, req: Record, k: string)
    ensures k !in ParentKeys() ==> Get(VendorOf(item, req).fields, k) == Get(item, k)
    ensures k in ParentKeys() ==> Get(VendorOf(item, req).fields, k) == Get(ParentFields(req), k)
  {
    ParentFieldKeys(req);
  }

  /** Working the placeholder response out again from a vendor's merged fields gives
      the one stored with it: the parent fields never overwrite price, quantity or
      contact. */
  lemma {:induction false} MockOfMerged(item: Record, req: Record)
    ensures MockFor(VendorOf(item, req).fields) == MockFor(item)
  {
    var f := VendorOf(item, req).fields;
    CapitalKeyNotParent(PRICE_KEY);
    CapitalKeyNotParent(QUANTITY_KEY);
    CapitalKeyNotParent(CONTACT_KEY);
    VendorOfGet(item, req, PRICE_KEY);
    VendorOfGet(item, req, QUANTITY_KEY);
    VendorOfGet(item, req, CONTACT_KEY);
  }

  /** A request without matched items gives a group without vendors. */
  lemma {:induction false} GroupWithoutProducts(r: Request)
    requires r.products.None? || r.products == Some([])
    ensures GroupOf(r).vendors == []
  {
  }

  // ---------------------------------------------------------------------------
  // Response statistics

  /** `mockVendorResponse?.Product_Available === 'YES' || mockVendorResponse?.Vendor_Price`. */
  predicate HasResponse(v: Vendor) {
    v.mock.productAvailable == Str(YES) || Truthy(v.mock.vendorPrice)
  }

  function CountResponded(vs: seq<Vendor>): (n: nat)
    ensures n <= |vs|
  {
    if vs == [] then 0 else (if HasResponse(vs[0]) then 1 else 0) + CountResponded(vs[1..])
  }

  /** The "responded/total" pair of a group. */
  datatype RfqStats = RfqStats(total: nat, responded: nat)

  /** `getRFQStatusForGroup`: the total is the number of vendors, and never fewer have
      responded. */
  function RfqStatusFor(vs: seq<Vendor>): (s: RfqStats)
    ensures s.total == |vs| && s.responded <= s.total
  {
    RfqStats(|vs|, CountResponded(vs))
  }

  /** Every vendor has responded exactly when the two numbers are equal. */
  lemma {:induction false} AllResponded(vs: seq<Vendor>)
    ensures RfqStatusFor(vs).responded == RfqStatusFor(vs).total <==> forall i :: 0 <= i < |vs| ==> HasResponse(vs[i])
  {
    if vs != [] {
      AllResponded(vs[1..]);
      assert forall i :: 1 <= i < |vs| ==> vs[i] == vs[1..][i - 1];
    }
  }

  /** No vendor has responded exactly when the count is zero. */
  lemma {:induction false} NoneResponded(vs: seq<Vendor>)
    ensures RfqStatusFor(vs).responded == 0 <==> forall i :: 0 <= i < |vs| ==> !HasResponse(vs[i])
  {
    if vs != [] {
      NoneResponded(vs[1..]);
      assert forall i :: 1 <= i < |vs| ==> vs[i] == vs[1..][i - 1];
    }
  }

  /** The number of matched items that carry a price. */
  function CountPriced(items: seq<Record>): (n: nat)
    ensures n <= |items|
  {
    if items == [] then 0 else (if Truthy(Get(items[0], PRICE_KEY)) then 1 else 0) + CountPriced(items[1..])
  }

  lemma {:induction false} CountsAgree(vs: seq<Vendor>, items: seq<Record>)
    requires |vs| == |items|
    requires forall i :: 0 <= i < |vs| ==> (HasResponse(vs[i]) <==> Truthy(Get(items[i], PRICE_KEY)))
    ensures CountResponded(vs) == CountPriced(items)
  {
    if vs != [] {
      assert forall i :: 0 <= i < |vs| - 1 ==> vs[1..][i] == vs[i + 1] && items[1..][i] == items[i + 1];
      CountsAgree(vs[1..], items[1..]);
    }
  }

  /** In a group, the vendors counted as responded are exactly the priced items. */
  lemma {:induction false} RespondedArePriced(r: Request)
    ensures RfqStatusFor(GroupOf(r).vendors) == RfqStats(|ProductsOf(r)|, CountPriced(ProductsOf(r)))
  {
    var g := GroupOf(r);
    forall i | 0 <= i < |g.vendors|
      ensures HasResponse(g.vendors[i]) <==> Truthy(Get(ProductsOf(r)[i], PRICE_KEY))
    {
      MockFieldsAgree(ProductsOf(r)[i]);
    }
    CountsAgree(g.vendors, ProductsOf(r));
  }

  // ---------------------------------------------------------------------------
  // The group filter

  /** `(x || '').toLowerCase()`. */
  function LowerText(v: JsValue): string {
    ToLower(ToJsString(Or(v, Str(""))))
  }

  /** `(item.mainRow.Match_ID || '').toString()`. */
  function IdText(g: Group): string {
    ToJsString(Or(Get(g.mainRow, "Match_ID"), Str("")))
  }

  predicate VendorNamed(g: Group, t: string) {
    exists i :: 0 <= i < |g.vendors| && Contains(LowerText(Get(g.vendors[i].fields, VENDOR_NAME_KEY)), t)
  }

  /** The filter of `filteredMatching` as written, for a lower-cased term `t`: the
      match id is compared without lower-casing. */
  predicate GroupMatchesAsWritten(g: Group, t: string) {
    || Contains(LowerText(g.customerName), t)
    || Contains(LowerText(g.productNeeded), t)
    || Contains(IdText(g), t)
    || VendorNamed(g, t)
  }

  /** The filter as intended: case-insensitive on every field, the match id included. */
  predicate GroupMatches(g: Group, t: string) {
    || Contains(LowerText(g.customerName), t)
    || Contains(LowerText(g.productNeeded), t)
    || Contains(ToLower(IdText(g)), t)
    || VendorNamed(g, t)
  }

  /** The two filters differ only on a match id with upper-case letters. */
  lemma {:induction false} FiltersAgreeOnLowerIds(g: Group, t: string)
    requires ToLower(IdText(g)) == IdText(g)
    ensures GroupMatchesAsWritten(g, t) == GroupMatches(g, t)
  {
  }

  /** For a lower-cased term, the intended filter accepts every group the written one
      accepts: lower-casing the match id can only add matches. */
  lemma {:induction false} CorrectedAcceptsMore(g: Group, t: string)
    requires ToLower(t) == t
    ensures GroupMatchesAsWritten(g, t) ==> GroupMatches(g, t)
  {
    if Contains(IdText(g), t) {
      LowerKeepsContains(IdText(g), t);
    }
  }

  /** A feed with one request: match id "M1", customer "Acme", no products. */
  function ExampleGroup(): Group {
    GroupOf(Request(map["matchId" := Str("M1"), "customerName" := Str("Acme")], Some([])))
  }

  /** The displayed fields of the example group. */
  lemma {:induction false} ExampleGroupFields()
    ensures IdText(ExampleGroup()) == "M1"
    ensures LowerText(ExampleGroup().customerName) == "acme"
    ensures LowerText(ExampleGroup().productNeeded) == DASH
    ensures ExampleGroup().vendors == []
  {
    var g := ExampleGroup();
    assert g.customerName == Str("Acme");
    assert g.productNeeded == Str(DASH);
    assert ToLower(DASH) == DASH;
  }

  /** As written, typing the match id "M1" does not find its group: the term becomes
      "m1", which the unchanged id "M1" does not contain. */
  lemma {:induction false} UpperCaseIdMissed()
    ensures !GroupMatchesAsWritten(ExampleGroup(), ToLower("M1"))
    ensures GroupMatches(ExampleGroup(), ToLower("M1"))
  {
    ExampleGroupFields();
    assert ToLower("M1") == "m1";
    IdOnlyInLowerCase(ExampleGroup(), ToLower("M1"));
  }

  /** A group whose only text containing "m1" is its id "M1" is found by the intended
      filter and missed by the filter as written. */
  lemma {:induction false} IdOnlyInLowerCase(g: Group, t: string)
    requires IdText(g) == "M1" && LowerText(g.customerName) == "acme"
    requires LowerText(g.productNeeded) == DASH && g.vendors == []
    requires t == "m1"
    ensures !GroupMatchesAsWritten(g, t)
    ensures GroupMatches(g, t)
  {
    MissingCharNotContained("M1", t, 0);
    MissingCharNotContained("acme", t, 1);
    MissingCharNotContained(DASH, t, 0);
    assert ToLower(IdText(g)) == t;
    assert t <= ToLower(IdText(g));
  }

  /** A string lacking one of the characters of `t` does not contain `t`. */
  lemma {:induction false} MissingCharNotContained(s: string, t: string, j: nat)
    requires j < |t| && t[j] !in s
    ensures !Contains(s, t)
  {
    if s != [] {
      assert t[j] !in s[1..] by {
        assert forall c :: c in s[1..] ==> c in s;
      }
      MissingCharNotContained(s[1..], t, j);
    }
  }

  /** How the match id is compared with the lower-cased term: unchanged, as the code
      does, or lower-cased like the other fields. */
  datatype IdRule = RawId | LowerCasedId

  predicate MatchesUnder(rule: IdRule, g: Group, t: string) {
    match rule
    case RawId => GroupMatchesAsWritten(g, t)
    case LowerCasedId => GroupMatches(g, t)
  }

  /** The groups that match the lower-cased term under `rule`, in board order. */
  function FilterBy(gs: seq<Group>, term: string, rule: IdRule): (r: seq<Group>)
    ensures |r| <= |gs|
    ensures forall i :: 0 <= i < |r| ==> r[i] in gs && MatchesUnder(rule, r[i], ToLower(term))
    ensures forall g :: g in gs && MatchesUnder(rule, g, ToLower(term)) ==> g in r
  {
    if gs == [] then []
    else
      var last := gs[|gs| - 1];
      var rest := FilterBy(gs[..|gs| - 1], term, rule);
      assert forall g :: g in gs ==> g in gs[..|gs| - 1] || g == last;
      if MatchesUnder(rule, last, ToLower(term)) then rest + [last] else rest
  }

  /** `filteredMatching` as written: the board on screen. */
  function FilteredMatching(gs: seq<Group>, term: string): (r: seq<Group>)
    ensures forall g :: g in r <==> g in gs && GroupMatchesAsWritten(g, ToLower(term))
  {
    FilterBy(gs, term, RawId)
  }

  /** `filteredMatching` with the match id lower-cased too. */
  function FilteredMatchingCorrected(gs: seq<Group>, term: string): (r: seq<Group>)
    ensures forall g :: g in r <==> g in gs && GroupMatches(g, ToLower(term))
  {
    FilterBy(gs, term, LowerCasedId)
  }

  /** The filtered board is the board with some groups left out, in the same order. */
  lemma {:induction false} FilteredIsSubsequence(gs: seq<Group>, term: string, rule: IdRule) returns (pos: seq<nat>)
    ensures Embedding(FilterBy(gs, term, rule), gs, pos)
  {
    if gs == [] {
      pos := [];
    } else {
      var init := gs[..|gs| - 1];
      var last := gs[|gs| - 1];
      pos := FilteredIsSubsequence(init, term, rule);
      InitLast(gs);
      if MatchesUnder(rule, last, ToLower(term)) {
        EmbeddingSnoc(FilterBy(init, term, rule), init, pos, last);
        pos := pos + [|init|];
      } else {
        EmbeddingSkip(FilterBy(init, term, rule), init, pos, last);
      }
    }
  }

  /** An empty search keeps the whole board: every string contains "". */
  lemma {:induction false} EmptySearchKeepsAll(gs: seq<Group>, rule: IdRule)
    ensures FilterBy(gs, "", rule) == gs
  {
    if gs != [] {
      var init := gs[..|gs| - 1];
      var last := gs[|gs| - 1];
      EmptySearchKeepsAll(init, rule);
      EmptyTermMatches(last, rule);
      assert FilterBy(gs, "", rule) == FilterBy(init, "", rule) + [last];
      InitLast(gs);
    }
  }

  lemma {:induction false} EmptyTermMatches(g: Group, rule: IdRule)
    ensures MatchesUnder(rule, g, ToLower(""))
  {
    assert ToLower("") == "";
    assert Contains(LowerText(g.customerName), "");
  }

  /** The corrected board shows every row the written one shows. */
  lemma {:induction false} CorrectedBoardShowsMore(gs: seq<Group>, term: string)
    ensures forall g :: g in FilteredMatching(gs, term) ==> g in FilteredMatchingCorrected(gs, term)
  {
    ToLowerIdempotent(term);
    forall g | g in FilteredMatching(gs, term)
      ensures g in FilteredMatchingCorrected(gs, term)
    {
      CorrectedAcceptsMore(g, ToLower(term));
    }
  }

  /** With the corrected filter, typing a group's match id as shown finds it. */
  lemma {:induction false} SearchByIdFinds(gs: seq<Group>, i: nat)
    requires i < |gs|
    ensures gs[i] in FilteredMatchingCorrected(gs, IdText(gs[i]))
  {
    var t := ToLower(IdText(gs[i]));
    assert t <= t;
    assert Contains(ToLower(IdText(gs[i])), t);
  }

  /** The board as written hides the example group when its id "M1" is typed. */
  lemma {:induction false} BoardHidesUpperCaseId()
    ensures FilteredMatching([ExampleGroup()], "M1") == []
    ensures FilteredMatchingCorrected([ExampleGroup()], "M1") == [ExampleGroup()]
  {
    var g := ExampleGroup();
    UpperCaseIdMissed();
    assert !MatchesUnder(RawId, g, ToLower("M1"));
    assert MatchesUnder(LowerCasedId, g, ToLower("M1"));
    assert [g][..0] == [];
  }

  // ---------------------------------------------------------------------------
  // Vendor selection

  /** Which vendors of row `row` are ticked: the key is the row's position on the
      filtered board. */
  function RowKey(row: nat): string {
    "row-" + NatToString(row)
  }

  /** `prev[rowKey] || []`. */
  function SelectionOf(selected: map<string, seq<int>>, row: nat): seq<int> {
    if RowKey(row) in selected then selected[RowKey(row)] else []
  }

  /** `current.filter(i => i !== v)`. */
  function Without(cur: seq<int>, v: int): (r: seq<int>)
    ensures v !in r
    ensures forall w :: w != v ==> (w in r <==> w in cur)
    ensures |r| <= |cur|
  {
    if cur == [] then []
    else
      var rest := Without(cur[..|cur| - 1], v);
      var last := cur[|cur| - 1];
      assert forall w :: w in cur <==> w in cur[..|cur| - 1] || w == last;
      if last == v then rest else rest + [last]
  }

  /** The toggle of one vendor index: removed when ticked, appended when not. */
  function Toggled(cur: seq<int>, v: int): (r: seq<int>)
    ensures v in r <==> v !in cur
    ensures forall w :: w != v ==> (w in r <==> w in cur)
  {
    if v in cur then Without(cur, v) else cur + [v]
  }

  lemma {:induction false} WithoutAbsent(cur: seq<int>, v: int)
    requires v !in cur
    ensures Without(cur, v) == cur
  {
    if cur != [] {
      var init := cur[..|cur| - 1];
      assert v !in init;
      WithoutAbsent(init, v);
      InitLast(cur);
    }
  }

  /** Ticking an unticked vendor and unticking it again restores the selection. */
  lemma {:induction false} ToggleTwice(cur: seq<int>, v: int)
    requires v !in cur
    ensures Toggled(Toggled(cur, v), v) == cur
  {
    var once := cur + [v];
    assert once[..|once| - 1] == cur;
    WithoutAbsent(cur, v);
  }

  /** `matchingVendors.filter((_, vIdx) => selected.includes(vIdx))`. */
  function SelectedList(vs: seq<Vendor>, picked: seq<int>): (r: seq<Vendor>)
    ensures |r| <= |vs|
    ensures picked == [] ==> r == []
  {
    if vs == [] then []
    else
      var rest := SelectedList(vs[..|vs| - 1], picked);
      if |vs| - 1 in picked then rest + [vs[|vs| - 1]] else rest
  }

  /** The selected vendors are the ticked positions, in board order. */
  lemma {:induction false} SelectedInOrder(vs: seq<Vendor>, picked: seq<int>) returns (pos: seq<nat>)
    ensures Embedding(SelectedList(vs, picked), vs, pos)
    ensures forall i :: 0 <= i < |pos| ==> pos[i] in picked
  {
    if vs == [] {
      pos := [];
    } else {
      var init := vs[..|vs| - 1];
      var last := vs[|vs| - 1];
      pos := SelectedInOrder(init, picked);
      InitLast(vs);
      if |vs| - 1 in picked {
        EmbeddingSnoc(SelectedList(init, picked), init, pos, last);
        pos := pos + [|init|];
      } else {
        EmbeddingSkip(SelectedList(init, picked), init, pos, last);
      }
    }
  }

  // ---------------------------------------------------------------------------
  // RFQ dispatch rules

  const NULL_TEXT: string := "Null"

  /** A contact or item id the board refuses to send to: the placeholder dash (the
      field is missing) or the text "Null". */
  predicate Unusable(v: JsValue) {
    v == Str(DASH) || v == Str(NULL_TEXT)
  }

  function ContactOf(v: Vendor): JsValue {
    SafeValue(Get(v.fields, CONTACT_KEY))
  }

  function ItemIdOf(v: Vendor): JsValue {
    SafeValue(Get(v.fields, ID_KEY))
  }

  /** The combined check of the bulk loop. */
  predicate Dispatchable(v: Vendor) {
    !Unusable(ContactOf(v)) && !Unusable(ItemIdOf(v))
  }

  /** The two checks of `sendRFQ`, contact first. */
  datatype Dispatch = Ready | NoContact | NoItemId

  function DispatchCheck(v: Vendor): (d: Dispatch)
    ensures d == Ready <==> Dispatchable(v)
    ensures d == NoContact <==> Unusable(ContactOf(v))
  {
    if Unusable(ContactOf(v)) then NoContact
    else if Unusable(ItemIdOf(v)) then NoItemId
    else Ready
  }

  /** Stated on the raw fields: a vendor item can be sent to exactly when both its
      contact and its id are present and neither is the text "Null" or the dash. */
  lemma {:induction false} DispatchableFields(v: Vendor)
    ensures Dispatchable(v) <==>
      && !IsMissing(Get(v.fields, CONTACT_KEY)) && Get(v.fields, CONTACT_KEY) != Str(DASH)
      && Get(v.fields, CONTACT_KEY) != Str(NULL_TEXT)
      && !IsMissing(Get(v.fields, ID_KEY)) && Get(v.fields, ID_KEY) != Str(DASH)
      && Get(v.fields, ID_KEY) != Str(NULL_TEXT)
  {
  }

  /** `${vendor.matchId}-${vendor.Id}`. */
  function RfqKey(v: Vendor): string {
    ToJsString(Get(v.fields, "matchId")) + "-" + ToJsString(Get(v.fields, ID_KEY))
  }

  /** In a group, a vendor's key joins the request's match id and the item's id, and
      whether it can be sent to depends on the item's own fields only. */
  lemma {:induction false} GroupVendorDispatch(r: Request, i: nat)
    requires i < |ProductsOf(r)|
    ensures RfqKey(GroupOf(r).vendors[i]) == ToJsString(Get(r.fields, "matchId")) + "-" + ToJsString(Get(ProductsOf(r)[i], ID_KEY))
    ensures ContactOf(GroupOf(r).vendors[i]) == SafeValue(Get(ProductsOf(r)[i], CONTACT_KEY))
    ensures ItemIdOf(GroupOf(r).vendors[i]) == SafeValue(Get(ProductsOf(r)[i], ID_KEY))
  {
    var item := ProductsOf(r)[i];
    assert GroupOf(r).vendors[i] == VendorOf(item, r.fields);
    CapitalKeyNotParent(ID_KEY);
    CapitalKeyNotParent(CONTACT_KEY);
    VendorOfGet(item, r.fields, ID_KEY);
    VendorOfGet(item, r.fields, CONTACT_KEY);
    VendorOfGet(item, r.fields, "matchId");
  }

  /** A key's entry in `rfqStatus`: `Cleared` is the `null` written on failure and by
      the reset; an absent key is `undefined`. */
  datatype RfqMark = Sending | Sent | Cleared

  /** The entry one bulk iteration leaves for a vendor. */
  function BulkStep(m: map<string, RfqMark>, v: Vendor, ok: bool): map<string, RfqMark> {
    if Dispatchable(v) then m[RfqKey(v) := if ok then Sent else Cleared] else m
  }

  /** The status map after the bulk loop has gone through `vs`, where `oks[i]` says
      whether the webhook accepted the i-th RFQ. */
  function BulkStatuses(m: map<string, RfqMark>, vs: seq<Vendor>, oks: seq<bool>): map<string, RfqMark>
    requires |oks| == |vs|
  {
    if vs == [] then m
    else BulkStep(BulkStatuses(m, vs[..|vs| - 1], oks[..|vs| - 1]), vs[|vs| - 1], oks[|vs| - 1])
  }

  /** `successCount` after the loop. */
  function Successes(vs: seq<Vendor>, oks: seq<bool>): (n: nat)
    requires |oks| == |vs|
    ensures n <= |vs|
  {
    if vs == [] then 0
    else Successes(vs[..|vs| - 1], oks[..|vs| - 1]) + (if Dispatchable(vs[|vs| - 1]) && oks[|vs| - 1] then 1 else 0)
  }

  /** The vendors the loop skips. */
  function Unsendable(vs: seq<Vendor>): (n: nat)
    ensures n <= |vs|
  {
    if vs == [] then 0 else Unsendable(vs[..|vs| - 1]) + (if Dispatchable(vs[|vs| - 1]) then 0 else 1)
  }

  /** Skipped vendors count as failures: the failures are at least the skipped ones,
      and there are no successes when every webhook call fails. */
  lemma {:induction false} FailuresCoverSkipped(vs: seq<Vendor>, oks: seq<bool>)
    requires |oks| == |vs|
    ensures |vs| - Successes(vs, oks) >= Unsendable(vs)
    ensures (forall i :: 0 <= i < |oks| ==> !oks[i]) ==> Successes(vs, oks) == 0
  {
    if vs != [] {
      var n := |vs| - 1;
      assert forall i :: 0 <= i < n ==> oks[..n][i] == oks[i];
      FailuresCoverSkipped(vs[..n], oks[..n]);
    }
  }

  /** A key no sendable vendor of the list maps to keeps its entry. */
  lemma {:induction false} BulkKeepsOtherKeys(m: map<string, RfqMark>, vs: seq<Vendor>, oks: seq<bool>, k: string)
    requires |oks| == |vs|
    requires forall i :: 0 <= i < |vs| && Dispatchable(vs[i]) ==> RfqKey(vs[i]) != k
    ensures k in BulkStatuses(m, vs, oks) <==> k in m
    ensures k in m ==> BulkStatuses(m, vs, oks)[k] == m[k]
  {
    if vs != [] {
      var n := |vs| - 1;
      assert forall i :: 0 <= i < n ==> vs[..n][i] == vs[i];
      BulkKeepsOtherKeys(m, vs[..n], oks[..n], k);
    }
  }

  /** After the loop every sendable vendor's key is settled, `Sent` or `Cleared`,
      never left `Sending`. */
  lemma {:induction false} BulkSettlesKeys(m: map<string, RfqMark>, vs: seq<Vendor>, oks: seq<bool>, i: nat)
    requires |oks| == |vs| && i < |vs| && Dispatchable(vs[i])
    ensures RfqKey(vs[i]) in BulkStatuses(m, vs, oks)
    ensures BulkStatuses(m, vs, oks)[RfqKey(vs[i])] != Sending
  {
    var n := |vs| - 1;
    if i < n {
      assert vs[..n][i] == vs[i];
      BulkSettlesKeys(m, vs[..n], oks[..n], i);
    }
  }

  /** One more iteration of the bulk loop, stated on prefixes. */
  lemma {:induction false} BulkPrefixStep(m: map<string, RfqMark>, vs: seq<Vendor>, oks: seq<bool>, i: nat)
    requires |oks| == |vs| && i < |vs|
    ensures BulkStatuses(m, vs[..i + 1], oks[..i + 1]) == BulkStep(BulkStatuses(m, vs[..i], oks[..i]), vs[i], oks[i])
    ensures Successes(vs[..i + 1], oks[..i + 1])
         == Successes(vs[..i], oks[..i]) + (if Dispatchable(vs[i]) && oks[i] then 1 else 0)
  {
    assert vs[..i + 1][..i] == vs[..i] && oks[..i + 1][..i] == oks[..i];
  }

  // ---------------------------------------------------------------------------
  // The response view and the offer checks

  /** The request details the response view shows, each through `safeValue`. */
  datatype MatchData = MatchData(
    vendorName: JsValue,
    productReq: JsValue,
    model: JsValue,
    quantity: JsValue,
    vendorContact: JsValue,
    matchId: JsValue,
    customerName: JsValue,
    customerEmail: JsValue,
    customerWhatsapp: JsValue)

  datatype ResponseView = ResponseView(response: MockResponse, matchData: MatchData)

  /** `handleViewVendorResponse`: the placeholder response worked out again from the
      vendor's fields, and its request details. */
  function ViewOf(v: Vendor): (view: ResponseView)
    ensures !IsMissing(view.matchData.customerWhatsapp) && !IsMissing(view.matchData.matchId)
  {
    var f := v.fields;
    ResponseView(
      MockFor(f),
      MatchData(
        SafeValue(Get(f, VENDOR_NAME_KEY)),
        SafeValue(Get(f, "productNeeded")),
        SafeValue(Get(f, "Item_Description")),
        SafeValue(Get(f, "totalQuantity")),
        SafeValue(Get(f, CONTACT_KEY)),
        SafeValue(Get(f, "matchId")),
        SafeValue(Get(f, "customerName")),
        SafeValue(Get(f, "customerEmail")),
        SafeValue(Get(f, "customerWhatsapp"))))
  }

  /** For a vendor of a group, the view shows the same response the group stored, and
      the request's own number. */
  lemma {:induction false} ViewMatchesGroup(r: Request, i: nat)
    requires i < |ProductsOf(r)|
    ensures ViewOf(GroupOf(r).vendors[i]).response == GroupOf(r).vendors[i].mock
    ensures ViewOf(GroupOf(r).vendors[i]).matchData.customerWhatsapp == SafeValue(Get(r.fields, "customerNumber"))
  {
    var item := ProductsOf(r)[i];
    assert GroupOf(r).vendors[i] == VendorOf(item, r.fields);
    MockOfMerged(item, r.fields);
    VendorOfGet(item, r.fields, "customerWhatsapp");
  }

  /** What `handleSendOffer` does before asking for confirmation. */
  datatype OfferVerdict = InvalidPrice | WhatsappUnavailable | AskToConfirm

  /** The two checks of `handleSendOffer`: a price that is entered and not at most
      zero, then a WhatsApp number that is present and not the dash. */
  function OfferCheck(offerPrice: string, whatsapp: JsValue): (verdict: OfferVerdict)
    ensures verdict == InvalidPrice <==> offerPrice == "" || AtMostZero(offerPrice)
    ensures verdict == AskToConfirm ==> Truthy(whatsapp) && whatsapp != Str(DASH)
    ensures verdict == WhatsappUnavailable <==> verdict != InvalidPrice && (!Truthy(whatsapp) || whatsapp == Str(DASH))
  {
    if offerPrice == "" || AtMostZero(offerPrice) then InvalidPrice
    else if !Truthy(whatsapp) || whatsapp == Str(DASH) then WhatsappUnavailable
    else AskToConfirm
  }

  /** Zero and negative prices written as digits are refused; any other digit string
      passes the price check. */
  lemma {:induction false} OfferPriceDigits(digits: string, whatsapp: JsValue)
    requires digits != [] && AllDigits(digits)
    ensures OfferCheck(digits, whatsapp) == InvalidPrice <==> !NonZeroDigitIn(digits)
    ensures OfferCheck("-" + digits, whatsapp) == InvalidPrice
  {
    DigitsSign(digits);
    NegatedDigitsSign(digits);
  }

  /** For a vendor of a group and a positive price, the offer goes to confirmation
      exactly when the request carries a customer number other than the dash. */
  lemma {:induction false} OfferNeedsCustomerNumber(r: Request, i: nat, offerPrice: string)
    requires i < |ProductsOf(r)|
    requires NumberSign(offerPrice) == Positive
    ensures OfferCheck(offerPrice, ViewOf(GroupOf(r).vendors[i]).matchData.customerWhatsapp) == AskToConfirm
        <==> !IsMissing(Get(r.fields, "customerNumber")) && Get(r.fields, "customerNumber") != Str(DASH)
  {
    ViewMatchesGroup(r, i);
    PositivePriceAccepted(offerPrice);
  }

  lemma {:induction false} PositivePriceAccepted(offerPrice: string)
    requires NumberSign(offerPrice) == Positive
    ensures offerPrice != "" && !AtMostZero(offerPrice)
  {
    assert !AllWhitespace(offerPrice);
    assert |offerPrice| > 0;
  }

  // ---------------------------------------------------------------------------
  // The board's state

  /** Which pop-up a handler shows; `Silent` when it shows none. */
  datatype Alert =
    | Silent
    | ContactUnavailable
    | ItemIdUnavailable
    | RfqSent
    | RfqFailed
    | NoVendors
    | BulkComplete(success: nat, fail: nat)

  /** The state of the `MatchingSheet` component. The webhook and endpoint outcomes,
      and the answer to a confirmation dialog are parameters of the handlers; timers are the event methods `ClearNewEntries`,
      `ExpireRfq` and `ClearRfqStatuses`. */
  class MatchingBoard {
    var requests: seq<Request>
    var loading: bool
    var error: Notice
    var newEntries: set<nat>
    var rfqStatus: map<string, RfqMark>
    var selected: map<string, seq<int>>
    var searchTerm: string
    var responseView: Option<ResponseView>

    constructor ()
      ensures requests == [] && loading && error == NoNotice && newEntries == {}
      ensures rfqStatus == map[] && selected == map[] && searchTerm == "" && responseView == None
    {
      requests := [];
      loading := true;
      error := NoNotice;
      newEntries := {};
      rfqStatus := map[];
      selected := map[];
      searchTerm := "";
      responseView := None;
    }

    /** `groupedMatchingData`. */
    function Groups(): (gs: seq<Group>)
      reads this
      ensures |gs| == |requests|
      ensures forall i :: 0 <= i < |requests| ==> gs[i] == GroupOf(requests[i])
    {
      Grouped(requests)
    }

    /** `filteredMatching`: the rows on screen. */
    function Shown(): (gs: seq<Group>)
      reads this
      ensures forall g :: g in gs <==> g in Groups() && GroupMatchesAsWritten(g, ToLower(searchTerm))
    {
      FilteredMatching(Groups(), searchTerm)
    }

    /** `fetchMatchingData` given the reply of one poll. A load replaces the requests, newest first, and clears the error; it
        marks the new leading rows when the list grew from a non-empty one. A failure
        keeps the requests and shows the error. Loading ends either way. */
    method FetchMatchingData(reply: FeedReply)
      modifies this`requests, this`loading, this`error, this`newEntries
      ensures !loading
      ensures FeedOf(reply).Rejected? ==>
        error == LoadFailed(FeedOf(reply).cause) && requests == old(requests) && newEntries == old(newEntries)
      ensures FeedOf(reply).Loaded? ==>
        && error == NoNotice
        && requests == FeedOf(reply).requests
        && newEntries == (if 0 < |old(requests)| < |requests| then FirstIndices(|requests| - |old(requests)|) else old(newEntries))
    {
      loading := true;
      error := NoNotice;
      var feed := FeedOf(reply);
      if feed.Loaded? {
        ShowFeed(feed.requests);
      } else {
        error := LoadFailed(feed.cause);
      }
      loading := false;
    }

    method ShowFeed(loaded: seq<Request>)
      modifies this`requests, this`newEntries
      ensures requests == loaded
      ensures newEntries == (if 0 < |old(requests)| < |loaded| then FirstIndices(|loaded| - |old(requests)|) else old(newEntries))
    {
      if 0 < |requests| < |loaded| {
        newEntries := NewEntryIds(|loaded| - |requests|);
      }
      requests := loaded;
    }

    /** The timer that ends the highlight of new rows. */
    method ClearNewEntries()
      modifies this`newEntries
      ensures newEntries == {}
    {
      newEntries := {};
    }

    method SetSearchTerm(term: string)
      modifies this`searchTerm
      ensures searchTerm == term
      ensures Shown() == FilteredMatching(Grouped(requests), term)
    {
      searchTerm := term;
    }

    /** The check box of vendor `v` in row `row`: its index leaves the row's selection
        when present, and is appended when not; other rows keep theirs. */
    method ToggleVendor(row: nat, v: int)
      modifies this`selected
      ensures selected == old(selected)[RowKey(row) := Toggled(SelectionOf(old(selected), row), v)]
      ensures v in SelectionOf(selected, row) <==> v !in SelectionOf(old(selected), row)
    {
      selected := selected[RowKey(row) := Toggled(SelectionOf(selected, row), v)];
    }

    /** `sendRFQ` given whether the webhook accepted the request: nothing changes unless the vendor has a contact and an item id; the
        key is then `Sending` while the call runs and ends `Sent` or cleared. */
    method SendRfq(v: Vendor, key: string, ok: bool) returns (alert: Alert)
      modifies this`rfqStatus
      ensures DispatchCheck(v) == NoContact ==> alert == ContactUnavailable && rfqStatus == old(rfqStatus)
      ensures DispatchCheck(v) == NoItemId ==> alert == ItemIdUnavailable && rfqStatus == old(rfqStatus)
      ensures DispatchCheck(v) == Ready ==>
        && rfqStatus == old(rfqStatus)[key := if ok then Sent else Cleared]
        && alert == (if ok then RfqSent else RfqFailed)
    {
      var check := DispatchCheck(v);
      if check == NoContact {
        alert := ContactUnavailable;
      } else if check == NoItemId {
        alert := ItemIdUnavailable;
      } else {
        rfqStatus := rfqStatus[key := Sending];
        rfqStatus := rfqStatus[key := if ok then Sent else Cleared];
        alert := if ok then RfqSent else RfqFailed;
      }
    }

    /** The timer that clears a key three seconds after a single RFQ was sent. */
    method ExpireRfq(key: string)
      modifies this`rfqStatus
      ensures rfqStatus == old(rfqStatus)[key := Cleared]
    {
      rfqStatus := rfqStatus[key := Cleared];
    }

    /** The timer that empties the status map three seconds after a bulk send. */
    method ClearRfqStatuses()
      modifies this`rfqStatus
      ensures rfqStatus == map[]
    {
      rfqStatus := map[];
    }

    /** `sendAllRFQ` given the answer to the confirmation and `oks[i]`, whether the webhook accepted the i-th vendor's
        RFQ. Once confirmed, the loop settles every sendable vendor's key and counts
        every other vendor as a failure. */
    method SendAllRfq(vs: seq<Vendor>, confirmed: bool, oks: seq<bool>)
      returns (alert: Alert, success: nat, fail: nat)
      requires |oks| == |vs|
      modifies this`rfqStatus
      ensures vs == [] ==> alert == NoVendors
      ensures vs != [] && !confirmed ==> alert == Silent
      ensures !(vs != [] && confirmed) ==> rfqStatus == old(rfqStatus) && success == 0 && fail == 0
      ensures vs != [] && confirmed ==>
        && rfqStatus == BulkStatuses(old(rfqStatus), vs, oks)
        && success == Successes(vs, oks) && success + fail == |vs| && fail >= Unsendable(vs)
        && alert == BulkComplete(success, fail)
        && (forall i :: 0 <= i < |vs| && Dispatchable(vs[i]) ==> RfqKey(vs[i]) in rfqStatus && rfqStatus[RfqKey(vs[i])] != Sending)
    {
      success, fail := 0, 0;
      if vs == [] {
        alert := NoVendors;
      } else if !confirmed {
        alert := Silent;
      } else {
        success, fail := SendEach(vs, oks);
        alert := BulkComplete(success, fail);
        FailuresCoverSkipped(vs, oks);
        forall i | 0 <= i < |vs| && Dispatchable(vs[i])
          ensures RfqKey(vs[i]) in rfqStatus && rfqStatus[RfqKey(vs[i])] != Sending
        {
          BulkSettlesKeys(old(rfqStatus), vs, oks, i);
        }
      }
    }

    /** The loop of `sendAllRFQ`. */
    method SendEach(vs: seq<Vendor>, oks: seq<bool>) returns (success: nat, fail: nat)
      requires |oks| == |vs|
      modifies this`rfqStatus
      ensures rfqStatus == BulkStatuses(old(rfqStatus), vs, oks)
      ensures success == Successes(vs, oks) && success + fail == |vs|
    {
      ghost var start := rfqStatus;
      success, fail := 0, 0;
      var i := 0;
      while i < |vs|
        invariant 0 <= i <= |vs|
        invariant rfqStatus == BulkStatuses(start, vs[..i], oks[..i])
        invariant success == Successes(vs[..i], oks[..i]) && success + fail == i
      {
        BulkPrefixStep(start, vs, oks, i);
        var v := vs[i];
        if Dispatchable(v) {
          var key := RfqKey(v);
          rfqStatus := rfqStatus[key := Sending];
          if oks[i] {
            success := success + 1;
            rfqStatus := rfqStatus[key := Sent];
          } else {
            fail := fail + 1;
            rfqStatus := rfqStatus[key := Cleared];
          }
        } else {
          fail := fail + 1;
        }
        i := i + 1;
      }
      WholePrefix(vs, i);
      WholePrefix(oks, i);
    }

    /** `sendSelectedRFQ` for row `row` of the board whose vendors are `vendors`: the
        bulk send over the ticked vendors, in board order, after which every row's
        selection is cleared, whatever the bulk send did. */
    method SendSelectedRfq(row: nat, vendors: seq<Vendor>, confirmed: bool, oks: seq<bool>)
      returns (alert: Alert, success: nat, fail: nat)
      requires |oks| == |SelectedList(vendors, SelectionOf(selected, row))|
      modifies this`rfqStatus, this`selected
      ensures selected == map[]
      ensures var list := SelectedList(vendors, SelectionOf(old(selected), row));
        if list != [] && confirmed then
          && rfqStatus == BulkStatuses(old(rfqStatus), list, oks)
          && success == Successes(list, oks) && success + fail == |list|
          && alert == BulkComplete(success, fail)
        else
          rfqStatus == old(rfqStatus) && success == 0 && fail == 0
    {
      var list := SelectedList(vendors, SelectionOf(selected, row));
      alert, success, fail := SendAllRfq(list, confirmed, oks);
      selected := map[];
    }

    /** `handleViewVendorResponse`: opens the response view for a vendor. */
    method ViewVendorResponse(v: Vendor)
      modifies this`responseView
      ensures responseView == Some(ViewOf(v))
    {
      responseView := Some(ViewOf(v));
    }

    /** The view's close button. */
    method CloseResponseView()
      modifies this`responseView
      ensures responseView == None
    {
      responseView := None;
    }
  }
}
