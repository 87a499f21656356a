/**
  Looking up a line item by id. The controller filters the snapshot's line
  items by id and takes the first element of the filtered list, which is
  `undefined` when nothing matches.
 */
module LineItems {
  import opened Wrappers
  import opened CartTypes

  /** `k` is the position of the first line item whose id is `id`. */
  ghost predicate IsFirstMatch(items: seq<LineItem>, id: string, k: int) {
    && 0 <= k < |items|
    && items[k].id == id
    && forall j :: 0 <= j < k ==> items[j].id != id
  }

  /** No line item has id `id`. */
  ghost predicate Absent(items: seq<LineItem>, id: string) {
    forall i :: 0 <= i < |items| ==> items[i].id != id
  }

  /** The line items whose id is `id`, in their original order (the source's `filter`). */
  function MatchingItems(items: seq<LineItem>, id: string): (r: seq<LineItem>)
    ensures forall x :: x in r ==> x in items && x.id == id
    ensures forall i :: 0 <= i < |items| && items[i].id == id ==> items[i] in r
    ensures |r| <= |items|
    ensures |r| == 0 <==> Absent(items, id)
    ensures |r| > 0 ==> exists k :: IsFirstMatch(items, id, k) && r[0] == items[k]
  {
    if |items| == 0 then []
    else
      var rest := MatchingItems(items[1..], id);
      if items[0].id == id then
        assert IsFirstMatch(items, id, 0);
        [items[0]] + rest
      else
        assert forall i :: 1 <= i < |items| ==> items[i] == items[1..][i - 1];
        assert |rest| > 0 ==> exists k :: IsFirstMatch(items[1..], id, k) && rest[0] == items[1..][k];
        assert |rest| > 0 ==> exists k :: IsFirstMatch(items, id, k) && rest[0] == items[k] by {
          if |rest| > 0 {
            var k :| IsFirstMatch(items[1..], id, k) && rest[0] == items[1..][k];
            assert IsFirstMatch(items, id, k + 1);
          }
        }
        rest
  }

  /** The first line item with id `id`, or None where the source would yield `undefined`. */
  function LineItemFromId(items: seq<LineItem>, id: string): (r: Option<LineItem>)
    ensures r.None? <==> Absent(items, id)
    ensures r.Some? ==> exists k :: IsFirstMatch(items, id, k) && r.value == items[k]
  {
    var matches := MatchingItems(items, id);
    if |matches| > 0 then Some(matches[0]) else None
  }

  /** First-match semantics, stated positionally: whenever some line item has the id, the lookup returns the one at the earliest such position. */
  lemma LookupReturnsEarliest(items: seq<LineItem>, id: string, k: int)
    requires IsFirstMatch(items, id, k)
    ensures LineItemFromId(items, id) == Some(items[k])
  {
    var r := LineItemFromId(items, id);
    assert !Absent(items, id);
    var k' :| IsFirstMatch(items, id, k') && r.value == items[k'];
    assert k' == k;
  }
}
