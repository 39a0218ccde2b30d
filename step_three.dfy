/**
  The review step: one row per answer worth showing, in `nameSort` order,
  labelled with the answer's translation key.
 */
module StepThree {
  import opened FormTypes

  /** A review row: the key it shows, its label's translation key and the value shown. */
  datatype Row = Row(key: Key, labelKey: string, value: JsValue)

  function RowsFor(keys: seq<Key>, d: Data): (r: seq<Row>)
    ensures |r| == |keys|
    ensures forall i :: 0 <= i < |r| ==> r[i].key == keys[i]
  {
    if keys == [] then [] else [Row(keys[0], LabelKey(keys[0]), Get(d, keys[0]))] + RowsFor(keys[1..], d)
  }

  /** The rows of the review list. */
  function ReviewRows(d: Data): seq<Row> {
    RowsFor(ShownKeys(d), d)
  }

  lemma {:induction false} RowsForShow(keys: seq<Key>, d: Data)
    ensures forall i :: 0 <= i < |keys| ==>
      RowsFor(keys, d)[i].value == Get(d, keys[i]) && RowsFor(keys, d)[i].labelKey == LabelKey(keys[i])
  {
    if keys != [] {
      RowsForShow(keys[1..], d);
    }
  }

  /**
    There is a row for a key exactly when `nameSort` lists it and its value is
    truthy; rows follow `nameSort` order; each shows its key's value under its
    key's label, the shipping term under `shippingTerms`.
   */
  lemma ReviewRowsSpec(d: Data)
    ensures forall k :: (exists i :: 0 <= i < |ReviewRows(d)| && ReviewRows(d)[i].key == k) <==> k in NameSort && Truthy(Get(d, k))
    ensures forall i, j :: 0 <= i < j < |ReviewRows(d)| ==> Rank(ReviewRows(d)[i].key) < Rank(ReviewRows(d)[j].key)
    ensures forall i :: 0 <= i < |ReviewRows(d)| ==>
      && ReviewRows(d)[i].value == Get(d, ReviewRows(d)[i].key)
      && Truthy(ReviewRows(d)[i].value)
      && ReviewRows(d)[i].labelKey == (if ReviewRows(d)[i].key == ShippingTerm then "shippingTerms" else KeyName(ReviewRows(d)[i].key))
  {
    var keys := ShownKeys(d);
    var rows := ReviewRows(d);
    ShownKeysSpec(d);
    RowsForShow(keys, d);
    forall k ensures (exists i :: 0 <= i < |rows| && rows[i].key == k) <==> k in keys {
      if k in keys {
        var i :| 0 <= i < |keys| && keys[i] == k;
        assert rows[i].key == k;
      }
    }
  }
}
