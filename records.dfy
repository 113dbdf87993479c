/**
 * Schema-typed payload records of the transport and `update_myData`
 * (python/salpytools/salpylib.py:658-667).
 *
 * A record is a map from field name to value; its key set is the record's
 * schema field set, the names `inspect.getmembers` finds on the generated
 * object.
 */
module Records {

  /** A field value: the generated records carry numbers and strings. */
  datatype Value = Number(n: int) | Text(s: string)

  type Record = map<string, Value>

  /**
   * `r` is `data` after setting each known field that `kwargs` names:
   * the field set is unchanged, a field named in `kwargs` takes the given
   * value, every other field keeps its value, and unknown keys of `kwargs`
   * are ignored.
   */
  ghost predicate UpdatedFrom(r: Record, data: Record, kwargs: map<string, Value>)
  {
    && r.Keys == data.Keys
    && (forall k :: k in data && k in kwargs ==> r[k] == kwargs[k])
    && (forall k :: k in data && k !in kwargs ==> r[k] == data[k])
  }

  /** The one record `UpdatedFrom(_, data, kwargs)` describes. */
  function Updated(data: Record, kwargs: map<string, Value>): Record
  {
    map k | k in data :: if k in kwargs then kwargs[k] else data[k]
  }

  /** The description determines the record: any `r` updated from `data` by `kwargs` is `Updated(data, kwargs)`. */
  lemma UpdatedFromIsUpdated(r: Record, data: Record, kwargs: map<string, Value>)
    ensures UpdatedFrom(r, data, kwargs) <==> r == Updated(data, kwargs)
  {
    if UpdatedFrom(r, data, kwargs) {
      assert r.Keys == Updated(data, kwargs).Keys;
      forall k | k in r ensures r[k] == Updated(data, kwargs)[k] {}
    }
  }

  /**
   * `update_myData(myData, **kwargs)`: look up the record's field set once,
   * then for every key of `kwargs` set that field when the record has it and
   * skip the key otherwise.
   */
  method UpdateMyData(data: Record, kwargs: map<string, Value>) returns (r: Record)
    ensures UpdatedFrom(r, data, kwargs)
  {
    var keys := data.Keys;
    r := data;
    var todo := kwargs.Keys;
    while todo != {}
      invariant todo <= kwargs.Keys
      invariant r.Keys == keys
      invariant forall k :: k in data && k in kwargs && k !in todo ==> r[k] == kwargs[k]
      invariant forall k :: k in data && (k !in kwargs || k in todo) ==> r[k] == data[k]
      decreases todo
    {
      var key :| key in todo;
      if key in keys {
        r := r[key := kwargs[key]];
      }
      todo := todo - {key};
    }
  }
}
