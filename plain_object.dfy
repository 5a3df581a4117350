/**
  How `handleQueryData` fills its result when it loops over the data map:
  `result[key] = value` on an object created by `{}`. On such an object the
  key `__proto__` reaches the accessor inherited from `Object.prototype`, so
  the assignment replaces the object's prototype and adds no own key; the
  entry then appears neither in `Object.keys(result)` nor in the JSON body.
  A submit with player id `_` and data type `proto__` stores exactly that key.
 */
module PlainObject {
  import opened Wrappers
  import opened OrderedMap
  import opened Room

  const ProtoKey := "__proto__"

  /** The own keys of a plain object after `obj[key] = v`. */
  function AssignAsWritten<V>(obj: Entries<string, V>, key: string, v: V): Entries<string, V> {
    if key == ProtoKey then obj else Set(obj, key, v)
  }

  /** The loop `for (const [key, value] of entries) result[key] = value`, from an empty object. */
  function AssignAllAsWritten<V>(entries: Entries<string, V>): Entries<string, V> {
    if entries == [] then []
    else
      var last := entries[|entries| - 1];
      AssignAsWritten(AssignAllAsWritten(entries[..|entries| - 1]), last.0, last.1)
  }

  /** The entries whose key is not `__proto__`, in order. */
  function WithoutProto<V>(entries: Entries<string, V>): Entries<string, V> {
    if entries == [] then []
    else
      var last := entries[|entries| - 1];
      WithoutProto(entries[..|entries| - 1]) + (if last.0 == ProtoKey then [] else [last])
  }

  /** The data query as written: the exact mode builds `{ [dataKey]: data }`, which keeps any key. */
  function QueryDataAsWritten<P>(data: DataTable<P>, query: Fields<P>): Reply<P> {
    var result :=
      if Present(query.playerId) && Present(query.dataType) then Select(data, query)
      else if Present(query.playerId) then AssignAllAsWritten(ByPlayer(data, query.playerId.value))
      else AssignAllAsWritten(data);
    DataResult(result, |result|)
  }

  lemma {:induction false} WithoutProtoFrom<V>(entries: Entries<string, V>, e: (string, V))
    ensures e in WithoutProto(entries) <==> e in entries && e.0 != ProtoKey
  {
    if entries != [] {
      var init := entries[..|entries| - 1];
      WithoutProtoFrom(init, e);
      assert entries == init + [entries[|entries| - 1]];
    }
  }

  /** Looping assignment into a plain object keeps every entry except the one under `__proto__`. */
  lemma {:induction false} AssignAllDropsProto<V>(entries: Entries<string, V>)
    requires Distinct(entries)
    ensures AssignAllAsWritten(entries) == WithoutProto(entries)
  {
    if entries != [] {
      var init := entries[..|entries| - 1];
      var last := entries[|entries| - 1];
      AssignAllDropsProto(init);
      var r := WithoutProto(init);
      forall j | 0 <= j < |r| ensures r[j].0 != last.0 {
        WithoutProtoFrom(init, r[j]);
        var k :| 0 <= k < |init| && init[k] == r[j];
        assert entries[k] == init[k];
      }
      SetFresh(r, last.0, last.1);
    }
  }

  /** Two different submissions store their datum under the key `__proto__`. */
  lemma ProtoKeyIsReachable()
    ensures DataKey("_", "proto__") == ProtoKey
    ensures DataKey("__proto", "_") == ProtoKey
  {
  }

  /**
    The discrepancy: a store holding one datum, submitted as player `_` with
    data type `proto__`. Queried without filters or by that player, the code
    as written answers with no data and `totalCount` 0; the intended answer,
    which `RoomStore.QueryData` gives, holds the one entry.
   */
  lemma ProtoEntryLostAsWritten<P>(e: DataEntry<P>)
    requires e.playerId == "_" && e.dataType == "proto__"
    ensures var data := [(DataKey(e.playerId, e.dataType), e)];
      var all := Fields(None, None, None, None);
      var mine := Fields(Some("_"), None, None, None);
      && QueryDataAsWritten(data, all) == DataResult([], 0)
      && QueryDataAsWritten(data, mine) == DataResult([], 0)
      && Select(data, all) == data && |Select(data, all)| == 1
      && Select(data, mine) == data && |Select(data, mine)| == 1
  {
    var data := [(DataKey(e.playerId, e.dataType), e)];
    ProtoKeyIsReachable();
    assert data[..0] == [];
    assert AssignAllAsWritten(data) == [];
    assert ByPlayer(data, "_") == data;
  }

  /** Apart from that key, the code as written answers as `Select` specifies. */
  lemma AsWrittenAgreesWithoutProto<P>(data: DataTable<P>, query: Fields<P>)
    requires Distinct(data)
    requires forall i :: 0 <= i < |data| ==> data[i].0 != ProtoKey
    ensures QueryDataAsWritten(data, query) == DataResult(Select(data, query), |Select(data, query)|)
  {
    var sel := Select(data, query);
    if !(Present(query.playerId) && Present(query.dataType)) {
      if Present(query.playerId) {
        ByPlayerDistinct(data, query.playerId.value);
      }
      forall i | 0 <= i < |sel| ensures sel[i].0 != ProtoKey {
        if Present(query.playerId) {
          ByPlayerExactly(data, query.playerId.value, sel[i]);
        }
      }
      AssignAllDropsProto(sel);
      NoProtoUnchanged(sel);
    }
  }

  lemma {:induction false} NoProtoUnchanged<V>(entries: Entries<string, V>)
    requires forall i :: 0 <= i < |entries| ==> entries[i].0 != ProtoKey
    ensures WithoutProto(entries) == entries
  {
    if entries != [] {
      var init := entries[..|entries| - 1];
      NoProtoUnchanged(init);
      assert entries == init + [entries[|entries| - 1]];
    }
  }
}
