/** The multi-term search screen (src/components/crm/SearchProductsView.jsx): terms are
    read from the text box, searched one after another, every hit is tagged with its
    term, hits are grouped by term for the summary, one group is shown a page at a time,
    and a group can be exported as CSV. The replies of the search service are inputs. */
module SearchProductsView {
  import opened Wrappers
  import opened Text
  import opened Js
  import opened Config
  import opened Csv
  import opened SearchCommon
  import opened Sequences

  const INITIAL_LIMIT: nat := ITEMS_PER_PAGE
  const LOAD_STEP: nat := ITEMS_PER_PAGE

  const UNKNOWN_TERM: string := "Unknown"

  /** What the screen's error line can hold; `Wording` gives the text shown. */
  datatype Notice = NoNotice | NoTerms | NoResults | TermFailed(term: string)

  /** The text of a notice. Only `NoNotice` is the empty (falsy) string, so the
      code's `if (!error)` asks whether no notice is set. */
  function Wording(n: Notice): (text: string)
    ensures text == [] <==> n == NoNotice
  {
    match n
    case NoNotice => []
    case NoTerms => "Please enter at least one product search term (3+ characters) separated by commas."
    case NoResults => "No API results found for the entered terms."
    case TermFailed(t) => "API Search failed for one or more terms (e.g., \"" + t + "\"). Check the URL or server."
  }

  // ---------------------------------------------------------------------------
  // One term

  function EnvelopeKeys(): seq<string> { ["matches", "data"] }

  /** `data?.matches || data?.data || data`, then `[]` unless that is an array. */
  function Envelope(body: Json): (items: seq<Record>)
    ensures body.JArray? ==> items == body.items
    ensures !body.JArray? && !body.JObject? ==> items == []
    ensures (forall i :: 0 <= i < |EnvelopeKeys()| ==> !TruthyMember(body, EnvelopeKeys()[i])) ==>
      items == ItemsOrEmpty(body)
  {
    match FirstTruthyMember(body, EnvelopeKeys())
    case Some(j) => ItemsOrEmpty(j)
    case None => ItemsOrEmpty(body)
  }

  /** When a member is truthy, the hits come from the first truthy one: its items when it
      is an array, none otherwise. */
  lemma {:induction false} EnvelopeTakesFirst(body: Json, i: int)
    requires FirstTruthyAt(body, EnvelopeKeys(), i)
    ensures Envelope(body) == ItemsOrEmpty(Member(body, EnvelopeKeys()[i]).value)
  {
    FirstTruthyMemberAt(body, EnvelopeKeys(), i);
  }

  /** The hits one request yields, or `None` when it threw or its reply was not ok
      (the code throws on a reply that is not ok, inside the same `try`). */
  function TermHits(reply: Reply): (hits: Option<seq<Record>>)
    ensures hits.None? <==> (reply.Thrown? || (reply.Response? && !IsOk(reply.status)))
    ensures hits.Some? ==> hits.value == Envelope(reply.body)
  {
    if reply.Response? && IsOk(reply.status) then Some(Envelope(reply.body)) else None
  }

  /** What one term adds to `cumulativeResults`. */
  function Contribution(term: string, reply: Reply): seq<Record> {
    match TermHits(reply)
    case None => []
    case Some(items) => Tag(items, term)
  }

  // ---------------------------------------------------------------------------
  // The sequence of terms

  /** `cumulativeResults` once the requests of `terms` have been answered by `replies`. */
  function Collected(terms: seq<string>, replies: seq<Reply>): seq<Record>
    requires |replies| == |terms|
  {
    if terms == [] then []
    else
      var n := |terms| - 1;
      Collected(terms[..n], replies[..n]) + Contribution(terms[n], replies[n])
  }

  /** The first term whose request failed, if any. */
  function FirstFailure(terms: seq<string>, replies: seq<Reply>): Option<string>
    requires |replies| == |terms|
  {
    if terms == [] then None
    else
      var n := |terms| - 1;
      var earlier := FirstFailure(terms[..n], replies[..n]);
      if earlier.None? && TermHits(replies[n]).None? then Some(terms[n]) else earlier
  }

  /** Collecting is compositional: the hits of a longer run are those of its first part
      followed by those of the rest, so results keep term order. */
  lemma {:induction false} CollectedAppend(t1: seq<string>, r1: seq<Reply>, t2: seq<string>, r2: seq<Reply>)
    requires |r1| == |t1| && |r2| == |t2|
    ensures Collected(t1 + t2, r1 + r2) == Collected(t1, r1) + Collected(t2, r2)
  {
    if t2 == [] {
      assert t1 + t2 == t1 && r1 + r2 == r1;
    } else {
      var n := |t2| - 1;
      CollectedAppend(t1, r1, t2[..n], r2[..n]);
      CollectedSnocOfAppend(t1, r1, t2, r2);
      Regroup(Collected(t1 + t2, r1 + r2), Collected(t1 + t2[..n], r1 + r2[..n]), Collected(t2, r2),
              Collected(t1, r1), Collected(t2[..n], r2[..n]), Contribution(t2[n], r2[n]));
    }
  }

  lemma {:induction false} CollectedSnocOfAppend(t1: seq<string>, r1: seq<Reply>, t2: seq<string>, r2: seq<Reply>)
    requires |r1| == |t1| && |r2| == |t2| && t2 != []
    ensures Collected(t1 + t2, r1 + r2)
         == Collected(t1 + t2[..|t2| - 1], r1 + r2[..|t2| - 1]) + Contribution(t2[|t2| - 1], r2[|t2| - 1])
    ensures Collected(t2, r2) == Collected(t2[..|t2| - 1], r2[..|t2| - 1]) + Contribution(t2[|t2| - 1], r2[|t2| - 1])
  {
    SplitLast(t1, t2);
    SplitLast(r1, r2);
  }

  /** The first failure of a longer run is the first part's, if it had one: a later
      failure never replaces the message of an earlier one. */
  lemma {:induction false} FirstFailureAppend(t1: seq<string>, r1: seq<Reply>, t2: seq<string>, r2: seq<Reply>)
    requires |r1| == |t1| && |r2| == |t2|
    ensures FirstFailure(t1 + t2, r1 + r2)
         == if FirstFailure(t1, r1).Some? then FirstFailure(t1, r1) else FirstFailure(t2, r2)
  {
    if t2 == [] {
      assert t1 + t2 == t1 && r1 + r2 == r1;
    } else {
      var n := |t2| - 1;
      SplitLast(t1, t2);
      SplitLast(r1, r2);
      FirstFailureAppend(t1, r1, t2[..n], r2[..n]);
    }
  }

  lemma {:induction false} CollectedOne(term: string, reply: Reply)
    ensures Collected([term], [reply]) == Contribution(term, reply)
    ensures FirstFailure([term], [reply]) == if TermHits(reply).None? then Some(term) else None
  {
    assert [term][..0] == [] && [reply][..0] == [];
  }

  /** A failing term contributes nothing, and the terms after it are still searched. */
  lemma {:induction false} FailedTermSkipped(terms: seq<string>, replies: seq<Reply>, i: nat)
    requires |replies| == |terms| && i < |terms| && TermHits(replies[i]).None?
    ensures Collected(terms, replies)
         == Collected(terms[..i], replies[..i]) + Collected(terms[i + 1..], replies[i + 1..])
  {
    assert terms == terms[..i] + ([terms[i]] + terms[i + 1..]);
    assert replies == replies[..i] + ([replies[i]] + replies[i + 1..]);
    CollectedAppend(terms[..i], replies[..i], [terms[i]] + terms[i + 1..], [replies[i]] + replies[i + 1..]);
    CollectedAppend([terms[i]], [replies[i]], terms[i + 1..], replies[i + 1..]);
    CollectedOne(terms[i], replies[i]);
    DropEmpty(Collected(terms, replies), Collected(terms[..i], replies[..i]),
              Collected([terms[i]] + terms[i + 1..], [replies[i]] + replies[i + 1..]),
              Collected([terms[i]], [replies[i]]), Collected(terms[i + 1..], replies[i + 1..]));
  }

  /** The first failing term is reported when every term before it succeeded. */
  lemma {:induction false} FirstFailureIsFirst(terms: seq<string>, replies: seq<Reply>, i: nat)
    requires |replies| == |terms| && i < |terms| && TermHits(replies[i]).None?
    requires forall j :: 0 <= j < i ==> TermHits(replies[j]).Some?
    ensures FirstFailure(terms, replies) == Some(terms[i])
  {
    NoFailure(terms[..i], replies[..i]);
    assert terms == terms[..i] + ([terms[i]] + terms[i + 1..]);
    assert replies == replies[..i] + ([replies[i]] + replies[i + 1..]);
    FirstFailureAppend(terms[..i], replies[..i], [terms[i]] + terms[i + 1..], [replies[i]] + replies[i + 1..]);
    FirstFailureAppend([terms[i]], [replies[i]], terms[i + 1..], replies[i + 1..]);
    CollectedOne(terms[i], replies[i]);
  }

  /** No failure is reported exactly when every request succeeded. */
  lemma {:induction false} NoFailure(terms: seq<string>, replies: seq<Reply>)
    requires |replies| == |terms|
    ensures FirstFailure(terms, replies).None? <==> forall j :: 0 <= j < |terms| ==> TermHits(replies[j]).Some?
  {
    if terms != [] {
      var n := |terms| - 1;
      NoFailure(terms[..n], replies[..n]);
      assert forall j :: 0 <= j < n ==> replies[..n][j] == replies[j];
    }
  }

  /** Every hit carries, as `sourceSearchTerm`, one of the searched terms. */
  lemma {:induction false} CollectedTagged(terms: seq<string>, replies: seq<Reply>)
    requires |replies| == |terms|
    ensures forall i :: 0 <= i < |Collected(terms, replies)| ==>
      Get(Collected(terms, replies)[i], "sourceSearchTerm").Str?
      && Get(Collected(terms, replies)[i], "sourceSearchTerm").s in terms
  {
    if terms != [] {
      var n := |terms| - 1;
      CollectedTagged(terms[..n], replies[..n]);
      var c := Collected(terms[..n], replies[..n]);
      var d := Contribution(terms[n], replies[n]);
      assert Collected(terms, replies) == c + d;
      forall i | 0 <= i < |c + d|
        ensures Get((c + d)[i], "sourceSearchTerm").Str? && Get((c + d)[i], "sourceSearchTerm").s in terms
      {
        if i < |c| {
          assert (c + d)[i] == c[i];
          var t := Get(c[i], "sourceSearchTerm").s;
          assert t in terms[..n];
        } else {
          assert (c + d)[i] == d[i - |c|];
        }
      }
    }
  }

  /** `performSearch`'s sequential loop: the hits collected in term order, whether any
      term failed, and the error text the first failure left. */
  method RunTerms(terms: seq<string>, replies: seq<Reply>)
    returns (results: seq<Record>, errorOccurred: bool, error: Notice)
    requires |replies| == |terms|
    ensures results == Collected(terms, replies)
    ensures errorOccurred <==> FirstFailure(terms, replies).Some?
    ensures error == if errorOccurred then TermFailed(FirstFailure(terms, replies).value) else NoNotice
  {
    results := [];
    errorOccurred := false;
    error := NoNotice;
    for i := 0 to |terms|
      invariant results == Collected(terms[..i], replies[..i])
      invariant errorOccurred <==> FirstFailure(terms[..i], replies[..i]).Some?
      invariant error == if errorOccurred then TermFailed(FirstFailure(terms[..i], replies[..i]).value) else NoNotice
    {
      assert terms[..i + 1][..i] == terms[..i] && replies[..i + 1][..i] == replies[..i];
      var reply := replies[i];
      if reply.Response? && IsOk(reply.status) {
        var tagged := Tag(Envelope(reply.body), terms[i]);
        results := results + tagged;
      } else {
        if error == NoNotice {
          error := TermFailed(terms[i]);
        }
        errorOccurred := true;
      }
    }
    assert terms[..|terms|] == terms && replies[..|replies|] == replies;
  }

  // ---------------------------------------------------------------------------
  // Grouping

  /** `item.sourceSearchTerm || 'Unknown'`: the group a hit belongs to. */
  function GroupKey(r: Record): string {
    ToJsString(Or(Get(r, "sourceSearchTerm"), Str(UNKNOWN_TERM)))
  }

  /** The group keys in the order they are first seen (the insertion order of the
      `Map`). */
  function GroupKeys(rs: seq<Record>): (keys: seq<string>)
    ensures forall i, j :: 0 <= i < j < |keys| ==> keys[i] != keys[j]
    ensures forall i :: 0 <= i < |rs| ==> GroupKey(rs[i]) in keys
  {
    if rs == [] then []
    else
      var n := |rs| - 1;
      var ks := GroupKeys(rs[..n]);
      assert forall i :: 0 <= i < n ==> rs[..n][i] == rs[i];
      if GroupKey(rs[n]) in ks then ks else ks + [GroupKey(rs[n])]
  }

  /** The hits of one group, in result order. */
  function Members(rs: seq<Record>, key: string): (m: seq<Record>)
    ensures |m| <= |rs|
    ensures forall i :: 0 <= i < |m| ==> GroupKey(m[i]) == key
  {
    if rs == [] then []
    else
      var n := |rs| - 1;
      var earlier := Members(rs[..n], key);
      var m := earlier + (if GroupKey(rs[n]) == key then [rs[n]] else []);
      assert forall i :: 0 <= i < |earlier| ==> m[i] == earlier[i];
      m
  }

  /** A key names a group exactly when some hit has it. */
  lemma {:induction false} MembersNonEmptyIffKey(rs: seq<Record>, key: string)
    ensures Members(rs, key) != [] <==> key in GroupKeys(rs)
  {
    if rs != [] {
      var n := |rs| - 1;
      MembersNonEmptyIffKey(rs[..n], key);
    }
  }

  /** Every hit is in the group of its own key, and in no other. */
  lemma {:induction false} MemberOfItsGroup(rs: seq<Record>, i: nat, key: string)
    requires i < |rs|
    ensures rs[i] in Members(rs, key) <==> GroupKey(rs[i]) == key
  {
    var n := |rs| - 1;
    if GroupKey(rs[i]) == key {
      if i == n {
        assert Members(rs, key) == Members(rs[..n], key) + [rs[n]];
      } else {
        MemberOfItsGroup(rs[..n], i, key);
        assert rs[..n][i] == rs[i];
      }
    }
  }

  /** The hits of a group are the hits with its key, in result order: `pos` lists
      their positions, increasing, and holds every position whose hit has the key. */
  lemma {:induction false} MembersInOrder(rs: seq<Record>, key: string) returns (pos: seq<nat>)
    ensures Embedding(Members(rs, key), rs, pos)
    ensures forall i :: 0 <= i < |rs| ==> (i in pos <==> GroupKey(rs[i]) == key)
  {
    if rs == [] {
      pos := [];
    } else {
      var n := |rs| - 1;
      var front := rs[..n];
      var earlier := MembersInOrder(front, key);
      InitLast(rs);
      if GroupKey(rs[n]) == key {
        EmbeddingSnoc(Members(front, key), front, earlier, rs[n]);
        pos := earlier + [n];
      } else {
        EmbeddingSkip(Members(front, key), front, earlier, rs[n]);
        pos := earlier;
      }
      forall i | 0 <= i < |rs|
        ensures i in pos <==> GroupKey(rs[i]) == key
      {
        if i < n {
          assert front[i] == rs[i];
          assert i in pos <==> i in earlier;
        } else {
          assert n !in earlier;
        }
      }
    }
  }

  /** Where `key` first occurs among the hits' keys, or `|rs|` when it does not. */
  function FirstIndex(rs: seq<Record>, key: string): (f: nat)
    ensures f <= |rs|
    ensures f < |rs| ==> GroupKey(rs[f]) == key
    ensures forall q :: 0 <= q < f ==> GroupKey(rs[q]) != key
  {
    if rs == [] then 0
    else
      var n := |rs| - 1;
      var f := FirstIndex(rs[..n], key);
      assert forall q :: 0 <= q < f ==> rs[q] == rs[..n][q];
      if f < n then f else if GroupKey(rs[n]) == key then n else n + 1
  }

  lemma {:induction false} GroupKeysSnoc(rs: seq<Record>)
    requires rs != []
    ensures var n := |rs| - 1;
      GroupKeys(rs) == if GroupKey(rs[n]) in GroupKeys(rs[..n]) then GroupKeys(rs[..n])
                       else GroupKeys(rs[..n]) + [GroupKey(rs[n])]
  {
  }

  /** A key is a group key exactly when some hit has it. */
  lemma {:induction false} FirstIndexIffKey(rs: seq<Record>, key: string)
    ensures FirstIndex(rs, key) < |rs| <==> key in GroupKeys(rs)
  {
    if rs != [] {
      var n := |rs| - 1;
      FirstIndexIffKey(rs[..n], key);
      GroupKeysSnoc(rs);
    }
  }

  /** The keys come in the order they are first seen: each key's first hit comes
      before the first hit of every later key. */
  lemma {:induction false} GroupKeysFirstSeen(rs: seq<Record>)
    ensures forall i, j :: 0 <= i < j < |GroupKeys(rs)| ==>
      FirstIndex(rs, GroupKeys(rs)[i]) < FirstIndex(rs, GroupKeys(rs)[j]) < |rs|
  {
    if rs != [] {
      var n := |rs| - 1;
      var front := rs[..n];
      var ks := GroupKeys(front);
      var keys := GroupKeys(rs);
      GroupKeysFirstSeen(front);
      GroupKeysSnoc(rs);
      forall i, j | 0 <= i < j < |keys|
        ensures FirstIndex(rs, keys[i]) < FirstIndex(rs, keys[j]) < |rs|
      {
        FirstIndexIffKey(front, ks[i]);
        assert keys[i] == ks[i] && FirstIndex(rs, keys[i]) == FirstIndex(front, ks[i]);
        if j < |ks| {
          FirstIndexIffKey(front, ks[j]);
          assert keys[j] == ks[j] && FirstIndex(rs, keys[j]) == FirstIndex(front, ks[j]);
        } else {
          var k := GroupKey(rs[n]);
          FirstIndexIffKey(front, k);
          assert keys[j] == k && FirstIndex(rs, k) == n;
        }
      }
    }
  }

  /** Total size of the groups listed in `keys`. */
  function GroupSizes(rs: seq<Record>, keys: seq<string>): nat {
    if keys == [] then 0 else |Members(rs, keys[0])| + GroupSizes(rs, keys[1..])
  }

  lemma {:induction false} GroupSizesSnoc(rs: seq<Record>, keys: seq<string>, key: string)
    ensures GroupSizes(rs, keys + [key]) == GroupSizes(rs, keys) + |Members(rs, key)|
  {
    if keys != [] {
      assert (keys + [key])[1..] == keys[1..] + [key];
      GroupSizesSnoc(rs, keys[1..], key);
    }
  }

  lemma {:induction false} GroupSizesGrow(rs: seq<Record>, r: Record, keys: seq<string>)
    requires forall i, j :: 0 <= i < j < |keys| ==> keys[i] != keys[j]
    ensures GroupSizes(rs + [r], keys) == GroupSizes(rs, keys) + (if GroupKey(r) in keys then 1 else 0)
  {
    if keys != [] {
      assert (rs + [r])[..|rs|] == rs;
      GroupSizesGrow(rs, r, keys[1..]);
      assert GroupKey(r) in keys <==> GroupKey(r) == keys[0] || GroupKey(r) in keys[1..];
      assert forall j :: 0 <= j < |keys[1..]| ==> keys[1..][j] == keys[j + 1];
    }
  }

  /** The groups partition the hits: their sizes add up to the number of hits. */
  lemma {:induction false} GroupSizesSumToTotal(rs: seq<Record>)
    ensures GroupSizes(rs, GroupKeys(rs)) == |rs|
  {
    if rs != [] {
      var n := |rs| - 1;
      var front := rs[..n];
      var ks := GroupKeys(front);
      var k := GroupKey(rs[n]);
      assert rs == front + [rs[n]];
      GroupSizesSumToTotal(front);
      GroupSizesGrow(front, rs[n], ks);
      if k !in ks {
        GroupSizesSnoc(rs, ks, k);
        GroupSizesGrow(front, rs[n], ks);
        MembersNonEmptyIffKey(front, k);
        assert Members(rs, k) == Members(front, k) + [rs[n]];
      }
    }
  }

  /** One more hit: its key is appended if new, and it joins its own group only. */
  lemma {:induction false} GroupStep(rs: seq<Record>, i: nat)
    requires i < |rs|
    ensures GroupKeys(rs[..i + 1]) == if GroupKey(rs[i]) in GroupKeys(rs[..i]) then GroupKeys(rs[..i])
                                       else GroupKeys(rs[..i]) + [GroupKey(rs[i])]
    ensures forall k :: Members(rs[..i + 1], k) == Members(rs[..i], k) + (if GroupKey(rs[i]) == k then [rs[i]] else [])
  {
    assert rs[..i + 1][..i] == rs[..i];
  }

  /** `groupedResults`: the `Map` built by `forEach`/`push`, as its key order and its
      entries. */
  method GroupResults(rs: seq<Record>) returns (keys: seq<string>, groups: map<string, seq<Record>>)
    ensures keys == GroupKeys(rs)
    ensures forall k :: k in groups <==> k in keys
    ensures forall k :: k in groups ==> groups[k] == Members(rs, k)
  {
    keys := [];
    groups := map[];
    for i := 0 to |rs|
      invariant keys == GroupKeys(rs[..i])
      invariant forall k :: k in groups <==> k in keys
      invariant forall k :: k in groups ==> groups[k] == Members(rs[..i], k)
    {
      GroupStep(rs, i);
      var term := GroupKey(rs[i]);
      if term !in groups {
        groups := groups[term := []];
        keys := keys + [term];
        MembersNonEmptyIffKey(rs[..i], term);
      }
      groups := groups[term := groups[term] + [rs[i]]];
    }
    assert rs[..|rs|] == rs;
  }

  // ---------------------------------------------------------------------------
  // The detail view

  /** `currentViewResults`: nothing while no group is selected (`null` or `''`), else
      the selected group. */
  function CurrentView(rs: seq<Record>, selected: Option<string>): (view: seq<Record>)
    ensures selected.None? || selected == Some([]) ==> view == []
    ensures forall i :: 0 <= i < |view| ==> selected.Some? && GroupKey(view[i]) == selected.value
    ensures selected.Some? && selected.value != [] ==>
      forall i :: 0 <= i < |rs| && GroupKey(rs[i]) == selected.value ==> rs[i] in view
  {
    if selected.None? || selected.value == [] then []
    else
      var key := selected.value;
      assert forall i :: 0 <= i < |rs| && GroupKey(rs[i]) == key ==> rs[i] in Members(rs, key) by {
        forall i | 0 <= i < |rs| && GroupKey(rs[i]) == key
          ensures rs[i] in Members(rs, key)
        {
          MemberOfItsGroup(rs, i, key);
        }
      }
      Members(rs, key)
  }

  /** The detail view lists the hits of the selected term in result order, each once:
      `pos` gives their positions among all hits. */
  lemma {:induction false} CurrentViewInOrder(rs: seq<Record>, key: string) returns (pos: seq<nat>)
    requires key != []
    ensures Embedding(CurrentView(rs, Some(key)), rs, pos)
    ensures forall i :: 0 <= i < |rs| ==> (i in pos <==> GroupKey(rs[i]) == key)
  {
    pos := MembersInOrder(rs, key);
  }

  /** `displayedDetailResults`: the first `limit` hits of the view. */
  function Displayed(view: seq<Record>, limit: nat): (shown: seq<Record>)
    ensures shown <= view
    ensures |shown| == Min(limit, |view|)
  {
    view[..Min(limit, |view|)]
  }

  /** The limit after one `loadMore` over a view of `n` hits. */
  function NextLimit(limit: nat, n: nat): (next: nat)
    ensures limit >= n ==> next == limit
    ensures limit < n ==> limit < next <= n && next <= limit + LOAD_STEP
    ensures limit < n ==> next == n || next == limit + LOAD_STEP
  {
    if limit < n then Min(limit + LOAD_STEP, n) else limit
  }

  /** The limit after `k` calls of `loadMore` on a freshly opened view. */
  function LimitAfter(n: nat, k: nat): nat {
    if k == 0 then INITIAL_LIMIT else NextLimit(LimitAfter(n, k - 1), n)
  }

  /** After `k` calls of `loadMore`, the view shows `min(50 + 50 k, n)` hits: each call
      shows one more page until everything is shown. */
  lemma {:induction false} ShownAfterLoads(n: nat, k: nat)
    ensures Min(LimitAfter(n, k), n) == Min(INITIAL_LIMIT + k * LOAD_STEP, n)
    ensures LimitAfter(n, k) >= INITIAL_LIMIT
  {
    if k > 0 {
      ShownAfterLoads(n, k - 1);
    }
  }

  // ---------------------------------------------------------------------------
  // CSV export

  const CSV_HEADER: seq<string> := [
    "Source Search Term", "Item Description", "Potential Buyer 1", "Quantity", "UQC",
    "Unit Price", "Potential Buyer 2", "Buyer 1 Contact", "Buyer 1 Email"]

  /** The alias keys of the columns after the first (`keysMap`). */
  const CSV_KEYS: seq<seq<string>> := [
    ["Item_Description", "itemDescription", "item_description", "Item Description"],
    ["Potential_Buyer_1", "potentialBuyer1", "potential_buyer_1", "Buyer 1"],
    ["Quantity", "quantity", "Qty"],
    ["UQC", "uqc", "unit_of_quantity", "UQC"],
    ["Unit_Price", "unitPrice", "price", "Unit Price"],
    ["Potential_Buyer_2", "potentialBuyer2", "potential_buyer_2", "Buyer 2"],
    ["Potential_Buyer_1_Contact_Detail", "potentialBuyer1ContactDetail", "Contact_Detail", "contact", "CONTACT"],
    ["Potential_Buyer_1_Email", "potentialBuyer1Email", "email_address", "email", "EMAIL"]]

  /** The cells of one hit before escaping: its term (or "N/A"), then each column's
      field value. `getFieldValue`'s result is never falsy, so the `|| 'N/A'` after it
      changes nothing (`Config.GetFieldValueIsTruthy`). */
  function CsvRow(item: Record): (row: seq<string>)
    ensures |row| == |CSV_HEADER|
    ensures forall j :: 0 <= j < |row| ==> row[j] != []
  {
    [ToJsString(Or(Get(item, "sourceSearchTerm"), Str(NOT_AVAILABLE)))]
      + seq(|CSV_KEYS|, j requires 0 <= j < |CSV_KEYS| => GetFieldValue(item, CSV_KEYS[j]))
  }

  function CsvRows(items: seq<Record>): (rows: seq<seq<string>>)
    ensures |rows| == |items|
    ensures forall i :: 0 <= i < |items| ==> rows[i] == CsvRow(items[i])
  {
    MapSeq(CsvRow, items)
  }

  lemma {:induction false} CsvDocumentStep(results: seq<Record>, i: nat)
    requires i < |results|
    ensures EncodeDocument(CsvRows(results[..i + 1]))
         == EncodeDocument(CsvRows(results[..i])) + EncodeLine(CsvRow(results[i]))
  {
    EncodeDocumentAppend(CsvRows(results[..i]), CsvRow(results[i]));
    MapSeqSnoc(CsvRow, results, i);
  }

  lemma {:induction false} CsvLineStep(start: string, results: seq<Record>, i: nat, content: string)
    requires i < |results| && content == start + EncodeDocument(CsvRows(results[..i]))
    ensures content + EncodeLine(CsvRow(results[i])) == start + EncodeDocument(CsvRows(results[..i + 1]))
  {
    CsvDocumentStep(results, i);
    AppendAssoc(start, EncodeDocument(CsvRows(results[..i])), EncodeLine(CsvRow(results[i])));
  }

  /** Reading an export back gives the header and one record per hit, each of nine
      fields, with every cell as written up to surrounding whitespace. */
  lemma {:induction false} CsvReadsBack(results: seq<Record>)
    ensures ParseDocument(EncodeDocument([CSV_HEADER] + CsvRows(results))) == Some(TrimRows([CSV_HEADER] + CsvRows(results)))
    ensures |TrimRows([CSV_HEADER] + CsvRows(results))| == |results| + 1
    ensures forall i :: 0 <= i < |results| + 1 ==> |TrimRows([CSV_HEADER] + CsvRows(results))[i]| == |CSV_HEADER|
  {
    HeaderedDocumentReadsBack(CSV_HEADER, CsvRows(results));
  }

  /** `generateCsvContent`: the header line, then one line per hit. */
  method GenerateCsvContent(results: seq<Record>) returns (content: string)
    ensures content == EncodeDocument([CSV_HEADER] + CsvRows(results))
  {
    var header := HeaderLine(CSV_HEADER);
    content := AppendHitLines(header, results);
    EncodeDocumentCons(CSV_HEADER, CsvRows(results));
  }

  /** The loop of `generateCsvContent`: one line per hit appended to `start`. */
  method AppendHitLines(start: string, results: seq<Record>) returns (content: string)
    ensures content == start + EncodeDocument(CsvRows(results))
  {
    content := start;
    WholePrefix(results, 0);
    var i := 0;
    while i < |results|
      invariant 0 <= i <= |results|
      invariant content == start + EncodeDocument(CsvRows(results[..i]))
    {
      var line := EncodeLine(CsvRow(results[i]));
      CsvLineStep(start, results, i, content);
      content := content + line;
      i := i + 1;
    }
    WholePrefix(results, |results|);
  }

  // ---------------------------------------------------------------------------
  // The screen

  /** The error shown once every term has been searched: the first failure's message,
      else the "no results" message for an empty result, else none. */
  function FinalError(results: seq<Record>, failure: Option<string>): (n: Notice)
    ensures n == NoNotice <==> failure.None? && results != []
    ensures n.TermFailed? <==> failure.Some?
    ensures n.TermFailed? ==> n.term == failure.value
    ensures n != NoTerms
  {
    match failure
    case Some(t) => TermFailed(t)
    case None => if results == [] then NoResults else NoNotice
  }

  /** The screen's state. `reportedCount` is the count handed to the parent through
      `setTotalProductsCount`; `selectedTerm` is `None` for `null`. */
  class SearchScreen {
    var searchTerm: string
    var rawResults: seq<Record>
    var loading: bool
    var error: Notice
    var selectedTerm: Option<string>
    var displayLimit: nat
    var reportedCount: nat

    constructor()
      ensures searchTerm == [] && rawResults == [] && !loading && error == NoNotice
      ensures selectedTerm == None && displayLimit == INITIAL_LIMIT && reportedCount == 0
    {
      searchTerm := [];
      rawResults := [];
      loading := false;
      error := NoNotice;
      selectedTerm := None;
      displayLimit := INITIAL_LIMIT;
      reportedCount := 0;
    }

    /** Typing in the text box. */
    method SetSearchTerm(s: string)
      modifies this
      ensures searchTerm == s
      ensures rawResults == old(rawResults) && loading == old(loading) && error == old(error)
      ensures selectedTerm == old(selectedTerm) && displayLimit == old(displayLimit)
      ensures reportedCount == old(reportedCount)
    {
      searchTerm := s;
    }

    /** `performSearch`, run to completion with one reply per term. */
    method PerformSearch(replies: seq<Reply>)
      requires |replies| == |Terms(searchTerm, CommaOrNewline)|
      modifies this
      ensures searchTerm == old(searchTerm) && displayLimit == old(displayLimit)
      ensures var terms := Terms(old(searchTerm), CommaOrNewline);
        terms == [] ==>
          && error == NoTerms && rawResults == [] && reportedCount == 0
          && loading == old(loading) && selectedTerm == old(selectedTerm)
      ensures var terms := Terms(old(searchTerm), CommaOrNewline);
        terms != [] ==>
          && rawResults == Collected(terms, replies)
          && reportedCount == |rawResults|
          && !loading && selectedTerm == None
          && error == FinalError(rawResults, FirstFailure(terms, replies))
    {
      var terms := Terms(searchTerm, CommaOrNewline);
      if |terms| == 0 {
        RejectSearch();
      } else {
        Search(terms, replies);
      }
    }

    /** `performSearch` with no usable term: the notice, and an empty result. */
    method RejectSearch()
      modifies this
      ensures error == NoTerms && rawResults == [] && reportedCount == 0
      ensures searchTerm == old(searchTerm) && displayLimit == old(displayLimit)
      ensures loading == old(loading) && selectedTerm == old(selectedTerm)
    {
      error, rawResults, reportedCount := NoTerms, [], 0;
    }

    /** The requests of `performSearch` for `terms`, one after another, and the state
        they leave. */
    method Search(terms: seq<string>, replies: seq<Reply>)
      requires |replies| == |terms|
      modifies this
      ensures searchTerm == old(searchTerm) && displayLimit == old(displayLimit)
      ensures rawResults == Collected(terms, replies) && reportedCount == |rawResults|
      ensures !loading && selectedTerm == None
      ensures error == FinalError(rawResults, FirstFailure(terms, replies))
    {
      // `loading` is set while the requests run; the run is modelled as one step.
      var results, errorOccurred, firstError := RunTerms(terms, replies);
      ShowOutcome(results, errorOccurred, firstError);
    }

    /** The end of `performSearch`: the hits of the run, the error of its first failed
        term or the "no results" message, `loading` cleared and the summary shown. */
    method ShowOutcome(results: seq<Record>, errorOccurred: bool, firstError: Notice)
      modifies this
      ensures searchTerm == old(searchTerm) && displayLimit == old(displayLimit)
      ensures rawResults == results && reportedCount == |results| && !loading && selectedTerm == None
      ensures error == if errorOccurred then firstError else if results == [] then NoResults else NoNotice
    {
      rawResults := results;
      reportedCount := |results|;
      selectedTerm := None;
      error := if errorOccurred then firstError else if |results| == 0 then NoResults else NoNotice;
      loading := false;
    }

    /** `openVendorDetailView`. */
    method OpenVendorDetailView(term: string)
      modifies this
      ensures selectedTerm == Some(term) && displayLimit == INITIAL_LIMIT
      ensures searchTerm == old(searchTerm) && rawResults == old(rawResults)
      ensures loading == old(loading) && error == old(error) && reportedCount == old(reportedCount)
    {
      selectedTerm := Some(term);
      displayLimit := INITIAL_LIMIT;
    }

    /** `goToSummaryView`. */
    method GoToSummaryView()
      modifies this
      ensures selectedTerm == None && displayLimit == INITIAL_LIMIT
      ensures searchTerm == old(searchTerm) && rawResults == old(rawResults)
      ensures loading == old(loading) && error == old(error) && reportedCount == old(reportedCount)
    {
      selectedTerm := None;
      displayLimit := INITIAL_LIMIT;
    }

    /** `loadMore`, run when the list is scrolled near its end. */
    method LoadMore()
      modifies this
      ensures displayLimit == NextLimit(old(displayLimit), |CurrentView(rawResults, selectedTerm)|)
      ensures searchTerm == old(searchTerm) && rawResults == old(rawResults)
      ensures selectedTerm == old(selectedTerm)
      ensures loading == old(loading) && error == old(error) && reportedCount == old(reportedCount)
    {
      var n := |CurrentView(rawResults, selectedTerm)|;
      if displayLimit < n {
        displayLimit := Min(displayLimit + LOAD_STEP, n);
      }
    }

    /** `exportTermToCsv`: nothing for a term with no hits, else the CSV text of its
      group. */
    method ExportTermToCsv(term: string) returns (content: Option<string>)
      ensures content.None? <==> term !in GroupKeys(rawResults)
      ensures content.Some? ==> content.value == EncodeDocument([CSV_HEADER] + CsvRows(Members(rawResults, term)))
    {
      var keys, groups := GroupResults(rawResults);
      var toExport := if term in groups then groups[term] else [];
      MembersNonEmptyIffKey(rawResults, term);
      if |toExport| == 0 {
        return None;
      }
      var text := GenerateCsvContent(toExport);
      return Some(text);
    }
  }
}
