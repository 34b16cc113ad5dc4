/** Field-access helpers shared by every view (src/utils/config.jsx): the display
    placeholder for missing values and the lookup over alternative field names. */
module Config {
  import opened Js

  /** Page size of every chunked list, `ITEMS_PER_PAGE`. */
  const ITEMS_PER_PAGE: nat := 50

  /** The placeholder `safeValue` shows for a missing value (an em dash). */
  const DASH: string := "\U{2014}"

  /** The value `getFieldValue` returns when no listed key holds a value. */
  const NOT_AVAILABLE: string := "N/A"

  /** `null`, `undefined` or the empty string: what both helpers treat as absent. */
  predicate IsMissing(v: JsValue) {
    v == Undefined || v == Null || v == Str("")
  }

  lemma {:induction false} MissingIsNotTruthy(v: JsValue)
    ensures IsMissing(v) <==> !Truthy(v)
  {
  }

  /** `safeValue(v)`: the placeholder for a missing value, the value itself otherwise. */
  function SafeValue(v: JsValue): (r: JsValue)
    ensures IsMissing(v) ==> r == Str(DASH)
    ensures !IsMissing(v) ==> r == v
    ensures !IsMissing(r) && r.Str?
  {
    if IsMissing(v) then Str(DASH) else v
  }

  /** `safeValue` is idempotent: the placeholder is itself a present value. */
  lemma {:induction false} SafeValueIdempotent(v: JsValue)
    ensures SafeValue(SafeValue(v)) == SafeValue(v)
  {
  }

  /** `r[k]` is defined, non-null and non-empty. */
  predicate Present(r: Record, k: string) {
    !IsMissing(Get(r, k))
  }

  /** No key before position `i` holds a value. */
  predicate NoneBefore(r: Record, keys: seq<string>, i: nat)
    requires i <= |keys|
  {
    forall j :: 0 <= j < i ==> !Present(r, keys[j])
  }

  /** `getFieldValue(r, ...keys)`: the value under the first key that holds one, in the
      order given, else "N/A". */
  function GetFieldValue(r: Record, keys: seq<string>): (v: string)
    ensures v != ""
    ensures (forall i :: 0 <= i < |keys| ==> !Present(r, keys[i])) ==> v == NOT_AVAILABLE
    ensures forall i :: 0 <= i < |keys| && Present(r, keys[i]) && NoneBefore(r, keys, i) ==>
      Str(v) == Get(r, keys[i])
  {
    if keys == [] then NOT_AVAILABLE
    else if Present(r, keys[0]) then Get(r, keys[0]).s
    else
      var v := GetFieldValue(r, keys[1..]);
      assert forall i :: 1 <= i < |keys| ==> keys[i] == keys[1..][i - 1];
      v
  }

  /** Either some listed key holds a value and the result is that value, or none does
      and the result is "N/A". */
  lemma {:induction false} GetFieldValueCases(r: Record, keys: seq<string>)
    ensures || (exists i :: 0 <= i < |keys| && Present(r, keys[i])
                 && Str(GetFieldValue(r, keys)) == Get(r, keys[i]))
            || ((forall i :: 0 <= i < |keys| ==> !Present(r, keys[i]))
                 && GetFieldValue(r, keys) == NOT_AVAILABLE)
  {
    if keys != [] && !Present(r, keys[0]) {
      GetFieldValueCases(r, keys[1..]);
      if exists i :: 0 <= i < |keys[1..]| && Present(r, keys[1..][i])
                     && Str(GetFieldValue(r, keys[1..])) == Get(r, keys[1..][i]) {
        var i :| 0 <= i < |keys[1..]| && Present(r, keys[1..][i])
                 && Str(GetFieldValue(r, keys[1..])) == Get(r, keys[1..][i]);
        assert Present(r, keys[i + 1]);
      } else {
        assert forall i :: 1 <= i < |keys| ==> keys[i] == keys[1..][i - 1];
      }
    }
  }

  /** Key order is priority order: keys listed after the first one that holds a value
      never affect the result. */
  lemma {:induction false} GetFieldValueIgnoresLaterKeys(r: Record, keys: seq<string>, i: nat, more: seq<string>)
    requires i < |keys| && Present(r, keys[i])
    ensures GetFieldValue(r, keys[..i + 1] + more) == GetFieldValue(r, keys)
  {
    if !Present(r, keys[0]) {
      assert (keys[..i + 1] + more)[1..] == keys[1..][..i] + more;
      GetFieldValueIgnoresLaterKeys(r, keys[1..], i - 1, more);
    }
  }

  /** The result is never `null`, `undefined` or empty, so a `|| fallback` after
      `getFieldValue` is never taken. */
  lemma {:induction false} GetFieldValueIsTruthy(r: Record, keys: seq<string>)
    ensures Truthy(Str(GetFieldValue(r, keys)))
    ensures Or(Str(GetFieldValue(r, keys)), Str(NOT_AVAILABLE)) == Str(GetFieldValue(r, keys))
  {
  }
}
