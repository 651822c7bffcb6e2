/**
  What every service of the model shares: result values, identifiers, and tables kept in insertion
  order whose rows carry the id of the booking they belong to.
*/
module Tables {
  type Uuid = nat

  datatype Option<+T> = None | Some(value: T)

  datatype Result<+T, +E> = Ok(value: T) | Err(error: E)

  // One row of `booking_events` or `ledger_entries`: the booking it belongs to, and its columns.
  datatype Row<T> = Row(key: Uuid, value: T)

  function Lookup<T>(m: map<Uuid, T>, b: Uuid): Option<T> {
    if b in m then Some(m[b]) else None
  }

  // The rows of one booking, oldest first.
  function Of<T>(table: seq<Row<T>>, b: Uuid): seq<T> {
    if table == [] then []
    else
      var last := table[|table| - 1];
      Of(table[..|table| - 1], b) + if last.key == b then [last.value] else []
  }

  function Tag<T>(b: Uuid, values: seq<T>): (rows: seq<Row<T>>)
    ensures |rows| == |values|
    ensures forall i | 0 <= i < |rows| :: rows[i] == Row(b, values[i])
  {
    seq(|values|, i requires 0 <= i < |values| => Row(b, values[i]))
  }

  lemma {:induction false} OfAppend<T>(table: seq<Row<T>>, more: seq<Row<T>>, b: Uuid)
    ensures Of(table + more, b) == Of(table, b) + Of(more, b)
  {
    if more == [] {
      assert table + more == table;
    } else {
      var all := table + more;
      assert all[..|all| - 1] == table + more[..|more| - 1];
      OfAppend(table, more[..|more| - 1], b);
    }
  }

  lemma {:induction false} OfTag<T>(k: Uuid, values: seq<T>, b: Uuid)
    ensures Of(Tag(k, values), b) == if k == b then values else []
  {
    if values != [] {
      var init := values[..|values| - 1];
      var rows := Tag(k, values);
      assert rows[..|rows| - 1] == Tag(k, init);
      OfTag(k, init, b);
      assert values == init + [values[|values| - 1]];
    }
  }

  lemma OfAppendTag<T>(table: seq<Row<T>>, k: Uuid, values: seq<T>, b: Uuid)
    ensures Of(table + Tag(k, values), b) == Of(table, b) + if k == b then values else []
  {
    OfAppend(table, Tag(k, values), b);
    OfTag(k, values, b);
  }

  lemma {:induction false} OfMember<T>(table: seq<Row<T>>, b: Uuid, i: nat)
    requires i < |table| && table[i].key == b
    ensures table[i].value in Of(table, b)
  {
    if i < |table| - 1 {
      OfMember(table[..|table| - 1], b, i);
    }
  }
}
