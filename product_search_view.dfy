/** The single-list product search screen (src/components/crm/ProductSearchView.jsx):
    comma-separated terms are searched one after another; a reply that is not ok skips
    its term, a thrown error abandons the whole search; every hit is tagged with its
    term, the distinct vendors of the hits are counted, and the list can be exported as
    CSV. The replies of the search service are inputs. */
module ProductSearchView {
  import opened Wrappers
  import opened Text
  import opened Js
  import opened Config
  import opened Csv
  import opened SearchCommon
  import opened Sequences

  /** The key whose values are counted as vendors. */
  const VENDOR_KEY: string := "Potential_Buyer_1"

  /** `getFieldValue`'s key list for the vendor, `['Potential_Buyer_1']`. */
  function VendorKeyOnly(): seq<string> { [VENDOR_KEY] }

  /** What the screen's error line can hold; `Wording` gives the text shown. */
  datatype Notice = NoNotice | NoTerms | NoResults | SearchAborted(message: string)

  /** The text of a notice; only `NoNotice` is the empty string. */
  function Wording(n: Notice): (text: string)
    ensures text == [] <==> n == NoNotice
  {
    match n
    case NoNotice => []
    case NoTerms => "Please enter at least one product search term (3+ characters)."
    case NoResults => "No API results found for the entered terms."
    case SearchAborted(m) => "\U{274C} API Search Error: " + m + ". Check the Search API URL or network."
  }

  // ---------------------------------------------------------------------------
  // One term

  /** The envelope keys tried, in order, on a reply body. */
  function EnvelopeKeys(): seq<string> { ["matches", "vendors", "data", "products", "results"] }

  /** `data?.matches || data?.vendors || data?.data || data?.products || data?.results || []`,
      then `[]` unless that is an array. A body that is itself an array has none of these
      members, so it yields nothing. */
  function Envelope(body: Json): (items: seq<Record>)
    ensures !body.JObject? ==> items == []
    ensures (forall i :: 0 <= i < |EnvelopeKeys()| ==> !TruthyMember(body, EnvelopeKeys()[i])) ==> items == []
  {
    match FirstTruthyMember(body, EnvelopeKeys())
    case Some(j) => ItemsOrEmpty(j)
    case None => []
  }

  /** When a member is truthy, the hits come from the first truthy one: its items when it
      is an array, none otherwise. */
  lemma {:induction false} EnvelopeTakesFirst(body: Json, i: int)
    requires FirstTruthyAt(body, EnvelopeKeys(), i)
    ensures Envelope(body) == ItemsOrEmpty(Member(body, EnvelopeKeys()[i]).value)
  {
    FirstTruthyMemberAt(body, EnvelopeKeys(), i);
  }

  /** What one request does to the search: skip its term, add its tagged hits, or abort. */
  datatype Step = Skip | Hits(items: seq<Record>) | Abort(message: string)

  function StepOf(term: string, reply: Reply): (st: Step)
    ensures st.Abort? <==> reply.Thrown?
    ensures st.Abort? ==> st.message == reply.message
    ensures st.Skip? <==> reply.Response? && !IsOk(reply.status)
    ensures st.Hits? ==> reply.Response? && st.items == Tag(Envelope(reply.body), term)
  {
    match reply
    case Thrown(m) => Abort(m)
    case Response(status, _, body) => if IsOk(status) then Hits(Tag(Envelope(body), term)) else Skip
  }

  /** The hits one term adds to `allResults`. */
  function Added(term: string, reply: Reply): seq<Record> {
    match StepOf(term, reply)
    case Hits(items) => items
    case _ => []
  }

  // ---------------------------------------------------------------------------
  // The sequence of terms

  /** `allResults` after the requests of `terms`, when none of them threw. */
  function Gathered(terms: seq<string>, replies: seq<Reply>): seq<Record>
    requires |replies| == |terms|
  {
    if terms == [] then []
    else
      var n := |terms| - 1;
      Gathered(terms[..n], replies[..n]) + Added(terms[n], replies[n])
  }

  /** The message of the first request that threw, if any. */
  function FirstThrown(replies: seq<Reply>): Option<string> {
    if replies == [] then None
    else
      var n := |replies| - 1;
      var earlier := FirstThrown(replies[..n]);
      if earlier.None? && replies[n].Thrown? then Some(replies[n].message) else earlier
  }

  /** Once a request has thrown, later replies no longer matter. */
  lemma {:induction false} FirstThrownPrefix(replies: seq<Reply>, i: nat)
    requires i <= |replies| && FirstThrown(replies[..i]).Some?
    ensures FirstThrown(replies) == FirstThrown(replies[..i])
  {
    if i < |replies| {
      var n := |replies| - 1;
      assert replies[..n][..i] == replies[..i];
      FirstThrownPrefix(replies[..n], i);
    } else {
      assert replies[..i] == replies;
    }
  }

  /** The search is abandoned exactly when some request threw, and then with the
      message of the first one. */
  lemma {:induction false} FirstThrownIsFirst(replies: seq<Reply>)
    ensures FirstThrown(replies).None? <==> forall j :: 0 <= j < |replies| ==> !replies[j].Thrown?
    ensures FirstThrown(replies).Some? ==>
      exists j :: (0 <= j < |replies| && replies[j].Thrown? && FirstThrown(replies) == Some(replies[j].message)
                   && forall k :: 0 <= k < j ==> !replies[k].Thrown?)
  {
    if replies != [] {
      var n := |replies| - 1;
      FirstThrownIsFirst(replies[..n]);
      assert forall j :: 0 <= j < n ==> replies[..n][j] == replies[j];
      if FirstThrown(replies[..n]).Some? {
        var j :| 0 <= j < n && replies[..n][j].Thrown? && FirstThrown(replies[..n]) == Some(replies[..n][j].message)
          && forall k :: 0 <= k < j ==> !replies[..n][k].Thrown?;
        assert replies[j].Thrown? && FirstThrown(replies) == Some(replies[j].message);
      }
    }
  }

  /** Gathering is compositional: the hits of a longer run are those of its first part
      followed by those of the rest. */
  lemma {:induction false} GatheredAppend(t1: seq<string>, r1: seq<Reply>, t2: seq<string>, r2: seq<Reply>)
    requires |r1| == |t1| && |r2| == |t2|
    ensures Gathered(t1 + t2, r1 + r2) == Gathered(t1, r1) + Gathered(t2, r2)
  {
    if t2 == [] {
      assert t1 + t2 == t1 && r1 + r2 == r1;
    } else {
      var n := |t2| - 1;
      GatheredAppend(t1, r1, t2[..n], r2[..n]);
      GatheredSnocOfAppend(t1, r1, t2, r2);
      Regroup(Gathered(t1 + t2, r1 + r2), Gathered(t1 + t2[..n], r1 + r2[..n]), Gathered(t2, r2),
              Gathered(t1, r1), Gathered(t2[..n], r2[..n]), Added(t2[n], r2[n]));
    }
  }

  lemma {:induction false} GatheredSnocOfAppend(t1: seq<string>, r1: seq<Reply>, t2: seq<string>, r2: seq<Reply>)
    requires |r1| == |t1| && |r2| == |t2| && t2 != []
    ensures Gathered(t1 + t2, r1 + r2)
         == Gathered(t1 + t2[..|t2| - 1], r1 + r2[..|t2| - 1]) + Added(t2[|t2| - 1], r2[|t2| - 1])
    ensures Gathered(t2, r2) == Gathered(t2[..|t2| - 1], r2[..|t2| - 1]) + Added(t2[|t2| - 1], r2[|t2| - 1])
  {
    var t, r, n := t1 + t2, r1 + r2, |t1 + t2| - 1;
    SplitLast(t1, t2);
    SplitLast(r1, r2);
    assert Gathered(t, r) == Gathered(t[..n], r[..n]) + Added(t[n], r[n]);
  }

  lemma {:induction false} GatheredOne(term: string, reply: Reply)
    ensures Gathered([term], [reply]) == Added(term, reply)
  {
    assert [term][..0] == [] && [reply][..0] == [];
  }

  lemma {:induction false} SkippedAddsNothing(term: string, reply: Reply)
    requires reply.Response? && !IsOk(reply.status)
    ensures Gathered([term], [reply]) == []
  {
    GatheredOne(term, reply);
  }

  /** A term whose reply is not ok (`continue`) adds nothing, and the terms after it are
      still searched. */
  lemma {:induction false} SkippedTerm(terms: seq<string>, replies: seq<Reply>, i: nat)
    requires |replies| == |terms| && i < |terms|
    requires replies[i].Response? && !IsOk(replies[i].status)
    ensures Gathered(terms, replies)
         == Gathered(terms[..i], replies[..i]) + Gathered(terms[i + 1..], replies[i + 1..])
  {
    var t1, r1 := terms[..i], replies[..i];
    var t3, r3 := terms[i + 1..], replies[i + 1..];
    var t2, r2 := [terms[i]] + t3, [replies[i]] + r3;
    assert terms == t1 + t2;
    assert replies == r1 + r2;
    GatheredAppend(t1, r1, t2, r2);
    GatheredAppend([terms[i]], [replies[i]], t3, r3);
    SkippedAddsNothing(terms[i], replies[i]);
    DropEmpty(Gathered(terms, replies), Gathered(t1, r1), Gathered(t2, r2),
              Gathered([terms[i]], [replies[i]]), Gathered(t3, r3));
  }

  /** Every hit carries, as `sourceSearchTerm`, one of the searched terms. */
  lemma {:induction false} GatheredTagged(terms: seq<string>, replies: seq<Reply>)
    requires |replies| == |terms|
    ensures forall i :: 0 <= i < |Gathered(terms, replies)| ==>
      Get(Gathered(terms, replies)[i], "sourceSearchTerm").Str?
      && Get(Gathered(terms, replies)[i], "sourceSearchTerm").s in terms
  {
    if terms != [] {
      var n := |terms| - 1;
      GatheredTagged(terms[..n], replies[..n]);
      var c := Gathered(terms[..n], replies[..n]);
      var d := Added(terms[n], replies[n]);
      var g := Gathered(terms, replies);
      assert g == c + d;
      forall i | 0 <= i < |g|
        ensures Get(g[i], "sourceSearchTerm").Str? && Get(g[i], "sourceSearchTerm").s in terms
      {
        if i < |c| {
          assert g[i] == c[i];
          InPrefixIn(Get(c[i], "sourceSearchTerm").s, terms, n);
        } else {
          assert g[i] == d[i - |c|];
          AddedTagged(terms[n], replies[n], i - |c|);
        }
      }
    }
  }

  lemma {:induction false} InPrefixIn(t: string, terms: seq<string>, n: nat)
    requires n <= |terms| && t in terms[..n]
    ensures t in terms
  {
  }

  /** Every hit a term adds carries that term. */
  lemma {:induction false} AddedTagged(term: string, reply: Reply, k: nat)
    requires k < |Added(term, reply)|
    ensures Get(Added(term, reply)[k], "sourceSearchTerm") == Str(term)
  {
  }

  // ---------------------------------------------------------------------------
  // Distinct vendors

  /** The vendors named by the hits: the `Potential_Buyer_1` values that are present.
      This is the evidently intended count; the screen, like the code, counts
      `VendorsAsWritten`, which also holds the "N/A" placeholder. */
  function Vendors(items: seq<Record>): set<string> {
    if items == [] then {}
    else
      var n := |items| - 1;
      Vendors(items[..n]) + (if Present(items[n], VENDOR_KEY) then {Get(items[n], VENDOR_KEY).s} else {})
  }

  /** A name is a vendor exactly when some hit holds it under `Potential_Buyer_1`. */
  lemma {:induction false} VendorsMembers(items: seq<Record>, v: string)
    ensures v in Vendors(items) <==>
      exists i :: 0 <= i < |items| && Present(items[i], VENDOR_KEY) && Get(items[i], VENDOR_KEY) == Str(v)
  {
    if items != [] {
      var n := |items| - 1;
      VendorsMembers(items[..n], v);
      assert forall i :: 0 <= i < n ==> items[..n][i] == items[i];
      if v in Vendors(items) && v !in Vendors(items[..n]) {
        assert Present(items[n], VENDOR_KEY) && Get(items[n], VENDOR_KEY) == Str(v);
      }
      if exists i :: 0 <= i < |items| && Present(items[i], VENDOR_KEY) && Get(items[i], VENDOR_KEY) == Str(v) {
        var i :| 0 <= i < |items| && Present(items[i], VENDOR_KEY) && Get(items[i], VENDOR_KEY) == Str(v);
        if i < n {
          assert items[..n][i] == items[i];
        }
      }
    }
  }

  /** The count of distinct vendors never exceeds the number of hits. */
  lemma {:induction false} VendorsBound(items: seq<Record>)
    ensures |Vendors(items)| <= |items|
  {
    if items != [] {
      var n := |items| - 1;
      VendorsBound(items[..n]);
      var a := Vendors(items[..n]);
      if Present(items[n], VENDOR_KEY) {
        var x := Get(items[n], VENDOR_KEY).s;
        assert |a + {x}| <= |a| + 1 by {
          if x in a { assert a + {x} == a; }
        }
      } else {
        assert a + {} == a;
      }
    }
  }

  /** Vendors of a concatenation are the union of the two parts' vendors. */
  lemma {:induction false} VendorsAppend(a: seq<Record>, b: seq<Record>)
    ensures Vendors(a + b) == Vendors(a) + Vendors(b)
  {
    if b == [] {
      assert a + b == a;
    } else {
      var n := |b| - 1;
      VendorsAppend(a, b[..n]);
      SplitLast(a, b);
    }
  }

  /** The vendor set as the code builds it: `getFieldValue(item, 'Potential_Buyer_1')`
      is "N/A" for a hit without a vendor and is never falsy, so the `if (vendor)` guard
      never skips and the placeholder is counted as a vendor. */
  function VendorsAsWritten(items: seq<Record>): set<string> {
    if items == [] then {}
    else
      var n := |items| - 1;
      VendorsAsWritten(items[..n]) + {GetFieldValue(items[n], VendorKeyOnly())}
  }

  /** The code's set is the vendors plus "N/A" as soon as one hit lacks a vendor. */
  lemma {:induction false} VendorsAsWrittenAddsPlaceholder(items: seq<Record>)
    ensures VendorsAsWritten(items) == Vendors(items)
      + (if exists i :: 0 <= i < |items| && !Present(items[i], VENDOR_KEY) then {NOT_AVAILABLE} else {})
  {
    if items != [] {
      var n := |items| - 1;
      VendorsAsWrittenAddsPlaceholder(items[..n]);
      assert forall i :: 0 <= i < n ==> items[..n][i] == items[i];
      assert (exists i :: 0 <= i < |items| && !Present(items[i], VENDOR_KEY))
        <==> (exists i :: 0 <= i < n && !Present(items[..n][i], VENDOR_KEY)) || !Present(items[n], VENDOR_KEY);
    }
  }

  /** A name is in the code's set exactly when `getFieldValue` returns it for some hit:
      a hit's vendor, or "N/A" for a hit without one. */
  lemma {:induction false} VendorsAsWrittenMembers(items: seq<Record>, v: string)
    ensures v in VendorsAsWritten(items) <==>
      exists i :: 0 <= i < |items| && GetFieldValue(items[i], VendorKeyOnly()) == v
  {
    if items != [] {
      var n := |items| - 1;
      VendorsAsWrittenMembers(items[..n], v);
      assert forall i :: 0 <= i < n ==> items[..n][i] == items[i];
      if exists i :: 0 <= i < |items| && GetFieldValue(items[i], VendorKeyOnly()) == v {
        var i :| 0 <= i < |items| && GetFieldValue(items[i], VendorKeyOnly()) == v;
        if i < n {
          assert items[..n][i] == items[i];
        }
      }
    }
  }

  /** The count the screen reports never exceeds the number of hits. */
  lemma {:induction false} VendorsAsWrittenBound(items: seq<Record>)
    ensures |VendorsAsWritten(items)| <= |items|
  {
    if items != [] {
      var n := |items| - 1;
      VendorsAsWrittenBound(items[..n]);
      var a := VendorsAsWritten(items[..n]);
      var x := GetFieldValue(items[n], VendorKeyOnly());
      assert |a + {x}| <= |a| + 1 by {
        if x in a { assert a + {x} == a; }
      }
    }
  }

  /** The code's set of a concatenation is the union of the two parts' sets. */
  lemma {:induction false} VendorsAsWrittenAppend(a: seq<Record>, b: seq<Record>)
    ensures VendorsAsWritten(a + b) == VendorsAsWritten(a) + VendorsAsWritten(b)
  {
    if b == [] {
      assert a + b == a;
    } else {
      var n := |b| - 1;
      VendorsAsWrittenAppend(a, b[..n]);
      SplitLast(a, b);
    }
  }

  /** The inner `forEach` of `performSearch`: every hit's `getFieldValue` result that is
      truthy is added to `vendors`. */
  method AddVendors(vendors: set<string>, items: seq<Record>) returns (vs: set<string>)
    ensures vs == vendors + VendorsAsWritten(items)
  {
    vs := vendors;
    for j := 0 to |items|
      invariant vs == vendors + VendorsAsWritten(items[..j])
    {
      assert items[..j + 1][..j] == items[..j];
      var vendor := GetFieldValue(items[j], VendorKeyOnly());
      if vendor != [] {
        vs := vs + {vendor};
      }
    }
    WholePrefix(items, |items|);
  }

  /** One hit without a vendor: the code reports one vendor, although no vendor is named. */
  lemma {:induction false} PlaceholderCountedAsVendor()
    ensures |VendorsAsWritten([map[]])| == 1
    ensures |Vendors([map[]])| == 0
  {
    var items: seq<Record> := [map[]];
    assert items[..0] == [];
    assert VendorsAsWritten(items) == {NOT_AVAILABLE};
    assert Vendors(items) == {};
  }

  // ---------------------------------------------------------------------------
  // The search loop

  /** One more term: its hits are appended, and its reply may be the first to throw. */
  lemma {:induction false} RunStep(terms: seq<string>, replies: seq<Reply>, i: nat)
    requires |replies| == |terms| && i < |terms|
    ensures Gathered(terms[..i + 1], replies[..i + 1]) == Gathered(terms[..i], replies[..i]) + Added(terms[i], replies[i])
    ensures FirstThrown(replies[..i + 1])
         == if FirstThrown(replies[..i]).None? && replies[i].Thrown? then Some(replies[i].message) else FirstThrown(replies[..i])
    ensures Added(terms[i], replies[i])
         == if replies[i].Response? && IsOk(replies[i].status) then Tag(Envelope(replies[i].body), terms[i]) else []
  {
    assert terms[..i + 1][..i] == terms[..i] && replies[..i + 1][..i] == replies[..i];
  }

  /** `performSearch`'s loop over the terms: a reply that is not ok skips its term, a
      thrown error ends the loop. Returns the hits, the number of distinct `getFieldValue`
      results among them (`uniqueVendors.size`) and the message of the error that ended
      it, if any. */
  method RunTerms(terms: seq<string>, replies: seq<Reply>)
    returns (results: seq<Record>, vendorCount: nat, aborted: Option<string>)
    requires |replies| == |terms|
    ensures aborted == FirstThrown(replies)
    ensures aborted.None? ==> results == Gathered(terms, replies) && vendorCount == |VendorsAsWritten(results)|
  {
    results := [];
    var vendors: set<string> := {};
    aborted := None;
    var i := 0;
    while i < |terms| && aborted.None?
      invariant 0 <= i <= |terms|
      invariant aborted == FirstThrown(replies[..i])
      invariant aborted.None? ==> results == Gathered(terms[..i], replies[..i]) && vendors == VendorsAsWritten(results)
    {
      RunStep(terms, replies, i);
      var reply := replies[i];
      if reply.Thrown? {
        aborted := Some(reply.message);
      } else if IsOk(reply.status) {
        var tagged := Tag(Envelope(reply.body), terms[i]);
        VendorsAsWrittenAppend(results, tagged);
        results := results + tagged;
        vendors := AddVendors(vendors, tagged);
      }
      i := i + 1;
    }
    if aborted.Some? {
      FirstThrownPrefix(replies, i);
    } else {
      WholePrefix(terms, i);
      WholePrefix(replies, i);
    }
    vendorCount := |vendors|;
  }

  // ---------------------------------------------------------------------------
  // CSV export

  const EXPORT_HEADER: seq<string> := ["Product Name", "Vendor Name", "Source Search Term"]
  function ProductKeys(): seq<string> { ["Item_Description", "itemDescription", "item_description"] }
  function VendorKeys(): seq<string> { ["Potential_Buyer_1", "potentialBuyer1", "potential_buyer_1"] }

  /** The cells of one hit before escaping: product, vendor, term (or "N/A"). */
  function ExportRow(item: Record): (row: seq<string>)
    ensures |row| == |EXPORT_HEADER|
    ensures forall j :: 0 <= j < |row| ==> row[j] != []
  {
    [GetFieldValue(item, ProductKeys()), GetFieldValue(item, VendorKeys()),
     ToJsString(Or(Get(item, "sourceSearchTerm"), Str(NOT_AVAILABLE)))]
  }

  function ExportRows(items: seq<Record>): (rows: seq<seq<string>>)
    ensures |rows| == |items|
    ensures forall i :: 0 <= i < |items| ==> rows[i] == ExportRow(items[i])
  {
    MapSeq(ExportRow, items)
  }

  lemma {:induction false} ExportDocumentStep(results: seq<Record>, i: nat)
    requires i < |results|
    ensures EncodeDocument(ExportRows(results[..i + 1]))
         == EncodeDocument(ExportRows(results[..i])) + EncodeLine(ExportRow(results[i]))
  {
    EncodeDocumentAppend(ExportRows(results[..i]), ExportRow(results[i]));
    MapSeqSnoc(ExportRow, results, i);
  }

  lemma {:induction false} ExportLineStep(start: string, results: seq<Record>, i: nat, content: string)
    requires i < |results| && content == start + EncodeDocument(ExportRows(results[..i]))
    ensures content + EncodeLine(ExportRow(results[i])) == start + EncodeDocument(ExportRows(results[..i + 1]))
  {
    ExportDocumentStep(results, i);
    AppendAssoc(start, EncodeDocument(ExportRows(results[..i])), EncodeLine(ExportRow(results[i])));
  }

  /** The `forEach` of `exportToCsv`: one line per hit appended to `start`. */
  method AppendHitLines(start: string, results: seq<Record>) returns (content: string)
    ensures content == start + EncodeDocument(ExportRows(results))
  {
    content := start;
    WholePrefix(results, 0);
    var i := 0;
    while i < |results|
      invariant 0 <= i <= |results|
      invariant content == start + EncodeDocument(ExportRows(results[..i]))
    {
      var line := EncodeLine(ExportRow(results[i]));
      ExportLineStep(start, results, i, content);
      content := content + line;
      i := i + 1;
    }
    WholePrefix(results, |results|);
  }

  /** The text `exportToCsv` downloads: the header, then one line per hit. */
  method ExportText(results: seq<Record>) returns (content: string)
    ensures content == EncodeDocument([EXPORT_HEADER] + ExportRows(results))
  {
    var header := HeaderLine(EXPORT_HEADER);
    content := AppendHitLines(header, results);
    EncodeDocumentCons(EXPORT_HEADER, ExportRows(results));
  }

  /** Reading an export back gives the header and one three-field record per hit, every
      cell as written up to surrounding whitespace. */
  lemma {:induction false} ExportReadsBack(results: seq<Record>)
    ensures ParseDocument(EncodeDocument([EXPORT_HEADER] + ExportRows(results)))
         == Some(TrimRows([EXPORT_HEADER] + ExportRows(results)))
    ensures |TrimRows([EXPORT_HEADER] + ExportRows(results))| == |results| + 1
    ensures forall i :: 0 <= i < |results| + 1 ==> |TrimRows([EXPORT_HEADER] + ExportRows(results))[i]| == 3
  {
    HeaderedDocumentReadsBack(EXPORT_HEADER, ExportRows(results));
  }

  // ---------------------------------------------------------------------------
  // The screen

  /** The error shown once the search has finished: the thrown error's message, else
      the "no results" message for an empty result, else none. */
  function FinalError(results: seq<Record>, aborted: Option<string>): (n: Notice)
    ensures n == NoNotice <==> aborted.None? && results != []
    ensures n.SearchAborted? <==> aborted.Some?
    ensures n.SearchAborted? ==> n.message == aborted.value
    ensures n != NoTerms
  {
    match aborted
    case Some(m) => SearchAborted(m)
    case None => if results == [] then NoResults else NoNotice
  }

  class SearchScreen {
    var searchTerm: string
    var rawResults: seq<Record>
    var loading: bool
    var error: Notice
    var totalVendorCount: nat

    constructor()
      ensures searchTerm == [] && rawResults == [] && !loading && error == NoNotice && totalVendorCount == 0
    {
      searchTerm := [];
      rawResults := [];
      loading := false;
      error := NoNotice;
      totalVendorCount := 0;
    }

    /** Typing in the text box. */
    method SetSearchTerm(s: string)
      modifies this
      ensures searchTerm == s
      ensures rawResults == old(rawResults) && loading == old(loading) && error == old(error)
      ensures totalVendorCount == old(totalVendorCount)
    {
      searchTerm := s;
    }

    /** `performSearch`, run to completion with one reply per term (replies after a
        thrown one are never asked for). */
    method PerformSearch(replies: seq<Reply>)
      requires |replies| == |Terms(searchTerm, CommaOnly)|
      modifies this
      ensures searchTerm == old(searchTerm)
      ensures var terms := Terms(old(searchTerm), CommaOnly);
        terms == [] ==>
          && error == NoTerms && rawResults == [] && totalVendorCount == 0
          && loading == old(loading)
      ensures var terms := Terms(old(searchTerm), CommaOnly);
        terms != [] ==> !loading && error == FinalError(rawResults, FirstThrown(replies))
      ensures var terms := Terms(old(searchTerm), CommaOnly);
        terms != [] && FirstThrown(replies).Some? ==>
          rawResults == [] && totalVendorCount == old(totalVendorCount)
      ensures var terms := Terms(old(searchTerm), CommaOnly);
        terms != [] && FirstThrown(replies).None? ==>
          rawResults == Gathered(terms, replies) && totalVendorCount == |VendorsAsWritten(rawResults)|
    {
      var terms := Terms(searchTerm, CommaOnly);
      if |terms| == 0 {
        RejectSearch();
      } else {
        var results, vendorCount, aborted := RunTerms(terms, replies);
        ShowOutcome(results, vendorCount, aborted);
      }
    }

    /** `performSearch` with no usable term: the notice, and an empty result. */
    method RejectSearch()
      modifies this
      ensures error == NoTerms && rawResults == [] && totalVendorCount == 0
      ensures searchTerm == old(searchTerm) && loading == old(loading)
    {
      error, rawResults, totalVendorCount := NoTerms, [], 0;
    }

    /** The end of `performSearch`: the hits and count of a finished run, or the error
        that abandoned it; `loading` is cleared. */
    method ShowOutcome(results: seq<Record>, vendorCount: nat, aborted: Option<string>)
      modifies this
      ensures searchTerm == old(searchTerm) && !loading && error == FinalError(rawResults, aborted)
      ensures aborted.Some? ==> rawResults == [] && totalVendorCount == old(totalVendorCount)
      ensures aborted.None? ==> rawResults == results && totalVendorCount == vendorCount
    {
      if aborted.None? {
        rawResults, totalVendorCount := results, vendorCount;
      } else {
        rawResults := [];
      }
      error := FinalError(rawResults, aborted);
      loading := false;
    }

    /** `exportToCsv`: nothing (an alert) when there are no results, else the CSV text. */
    method ExportToCsv() returns (content: Option<string>)
      ensures content.None? <==> rawResults == []
      ensures content.Some? ==> content.value == EncodeDocument([EXPORT_HEADER] + ExportRows(rawResults))
    {
      if |rawResults| == 0 {
        return None;
      }
      var text := ExportText(rawResults);
      return Some(text);
    }
  }
}
