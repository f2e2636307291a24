/**
 The reference-data request body: the securities, the fields, and one
 override object per caller-supplied item, built from the item's first two
 entries. The HTTP round trip and the response parsing are not modelled.
 */
module ReferenceData {
  import opened Wrappers

  /** One entry of the `overrides` list: `{'fieldId': ..., 'value': ...}`. */
  datatype Override = Override(fieldId: string, value: string)

  /** The body of a ReferenceDataRequest. */
  datatype ReferenceDataRequest = ReferenceDataRequest(
    securities: seq<string>,
    fields: seq<string>,
    overrides: seq<Override>)

  /** Item `index` has fewer than two entries, so `item[1]` raises. */
  datatype OverrideError = ShortOverride(index: nat)

  /** Every item has a field id and a value to read. */
  predicate AllComplete(items: seq<seq<string>>)
  {
    forall k :: 0 <= k < |items| ==> |items[k]| >= 2
  }

  /**
   The override loop: item k becomes `Override(item[0], item[1])`, in order,
   and any further entries of an item are ignored; the first item with fewer
   than two entries stops the loop with an error.
   */
  function BuildOverrides(items: seq<seq<string>>): (r: Result<seq<Override>, OverrideError>)
    ensures r.Success? <==> AllComplete(items)
    ensures r.Success? ==>
      && |r.value| == |items|
      && forall k :: 0 <= k < |items| ==> r.value[k] == Override(items[k][0], items[k][1])
    ensures r.Failure? ==>
      && r.error.index < |items|
      && |items[r.error.index]| < 2
      && AllComplete(items[..r.error.index])
  {
    if |items| == 0 then Success([])
    else
      var last := items[|items| - 1];
      match BuildOverrides(items[..|items| - 1])
      case Failure(e) => Failure(e)
      case Success(init) =>
        if |last| < 2 then Failure(ShortOverride(|items| - 1))
        else Success(init + [Override(last[0], last[1])])
  }

  /**
   `get_refData`'s request body: the tickers and fields as given and the
   overrides built from the items.
   */
  function RefDataRequest(tickers: seq<string>, fields: seq<string>, items: seq<seq<string>>): (r: Result<ReferenceDataRequest, OverrideError>)
    ensures r.Success? <==> AllComplete(items)
    ensures r.Success? ==>
      && r.value.securities == tickers
      && r.value.fields == fields
      && |r.value.overrides| == |items|
      && forall k :: 0 <= k < |items| ==> r.value.overrides[k] == Override(items[k][0], items[k][1])
    ensures r.Failure? ==> r.error.index < |items| && |items[r.error.index]| < 2
  {
    match BuildOverrides(items)
    case Failure(e) => Failure(e)
    case Success(overrides) => Success(ReferenceDataRequest(tickers, fields, overrides))
  }

  /** The items an override list is built from: `[fieldId, value]` each. */
  function OverridePairs(overrides: seq<Override>): (items: seq<seq<string>>)
    ensures |items| == |overrides|
    ensures forall k :: 0 <= k < |items| ==> items[k] == [overrides[k].fieldId, overrides[k].value]
  {
    seq(|overrides|, k requires 0 <= k < |overrides| => [overrides[k].fieldId, overrides[k].value])
  }

  /** Building from the pairs of an override list gives that list back. */
  lemma BuildFromPairs(overrides: seq<Override>)
    ensures BuildOverrides(OverridePairs(overrides)) == Success(overrides)
  {
    var items := OverridePairs(overrides);
    assert AllComplete(items) by {
      forall k | 0 <= k < |items| ensures |items[k]| >= 2 {
        assert items[k] == [overrides[k].fieldId, overrides[k].value];
      }
    }
    var built := BuildOverrides(items).value;
    forall k | 0 <= k < |overrides| ensures built[k] == overrides[k] {
      assert items[k] == [overrides[k].fieldId, overrides[k].value];
    }
    assert built == overrides;
  }

  /**
   The pairs of a built list are the items cut to their first two entries;
   items that are exact pairs come back unchanged.
   */
  lemma PairsOfBuilt(items: seq<seq<string>>)
    requires AllComplete(items)
    ensures var pairs := OverridePairs(BuildOverrides(items).value);
      && |pairs| == |items|
      && (forall k :: 0 <= k < |items| ==> pairs[k] == items[k][..2])
      && ((forall k :: 0 <= k < |items| ==> |items[k]| == 2) ==> pairs == items)
  {
    var built := BuildOverrides(items).value;
    var pairs := OverridePairs(built);
    forall k | 0 <= k < |items| ensures pairs[k] == items[k][..2] {
      assert built[k] == Override(items[k][0], items[k][1]);
      assert items[k][..2] == [items[k][0], items[k][1]];
    }
    if forall k :: 0 <= k < |items| ==> |items[k]| == 2 {
      forall k | 0 <= k < |items| ensures pairs[k] == items[k] {
        assert items[k][..2] == items[k];
      }
    }
  }
}
