/** The hosted relational store, seen through the four calls the server actions
    make on one table: insert, update-by-id, delete-by-id and an ordered select.
    Each call takes `ok`, the backend's outcome for that request (a network,
    authorisation or constraint failure is `ok == false`). */
module Store {
  import opened Wrappers
  import opened Ordering

  /** The authenticated caller, as the auth client reports it. */
  datatype User = User(id: string)

  /** A persisted row: server-assigned identity, owner tag, and the fields of its schema. */
  datatype Row<F> = Row(id: nat, userId: string, fields: F)

  /** A response `{ data, error }` of the store client. */
  datatype Response<T> = Response(data: Option<T>, error: bool)

  /** The table after inserting `fields` under the fresh identity `id`, owned by `owner`. */
  function Inserted<F>(rows: map<nat, Row<F>>, id: nat, owner: string, fields: F): (r: map<nat, Row<F>>)
    requires id !in rows
    ensures r.Keys == rows.Keys + {id}
    ensures r[id].userId == owner && r[id].fields == fields
    ensures forall k :: k in rows ==> r[k] == rows[k]
  {
    rows[id := Row(id, owner, fields)]
  }

  /** The table after `update(fields).eq("id", id)`: a missing id matches no row. */
  function Updated<F>(rows: map<nat, Row<F>>, id: nat, fields: F): map<nat, Row<F>> {
    if id in rows then rows[id := rows[id].(fields := fields)] else rows
  }

  /** The table after `delete().eq("id", id)`. */
  function Deleted<F>(rows: map<nat, Row<F>>, id: nat): map<nat, Row<F>> {
    rows - {id}
  }

  /** An update replaces the fields of the row with the given id, keeps its
      identity and owner, and leaves every other row as it was. */
  lemma UpdateTouchesOnlyId<F>(rows: map<nat, Row<F>>, id: nat, fields: F)
    ensures Updated(rows, id, fields).Keys == rows.Keys
    ensures id in rows ==> Updated(rows, id, fields)[id] == Row(rows[id].id, rows[id].userId, fields)
    ensures forall k :: k in rows && k != id ==> Updated(rows, id, fields)[k] == rows[k]
  {
  }

  /** A delete removes exactly the row with the given id; deleting it again changes nothing. */
  lemma DeleteRemovesOnlyId<F>(rows: map<nat, Row<F>>, id: nat)
    ensures Deleted(rows, id).Keys == rows.Keys - {id}
    ensures forall k :: k in rows && k != id ==> Deleted(rows, id)[k] == rows[k]
    ensures Deleted(Deleted(rows, id), id) == Deleted(rows, id)
  {
  }

  /** The rows whose identity is below `n`, in identity order. */
  function RowsBelow<F>(rows: map<nat, Row<F>>, n: nat): seq<Row<F>> {
    if n == 0 then []
    else RowsBelow(rows, n - 1) + (if n - 1 in rows then [rows[n - 1]] else [])
  }

  ghost function ValuesBelow<F>(rows: map<nat, Row<F>>, n: nat): set<Row<F>> {
    set k | k in rows && k < n :: rows[k]
  }

  lemma {:induction false} RowsBelowListsEach<F>(rows: map<nat, Row<F>>, n: nat)
    requires forall k :: k in rows ==> rows[k].id == k
    ensures multiset(RowsBelow(rows, n)) == multiset(ValuesBelow(rows, n))
  {
    if n > 0 {
      RowsBelowListsEach(rows, n - 1);
      if n - 1 in rows {
        var x := rows[n - 1];
        assert x !in ValuesBelow(rows, n - 1);
        assert ValuesBelow(rows, n) == ValuesBelow(rows, n - 1) + {x};
      } else {
        assert ValuesBelow(rows, n) == ValuesBelow(rows, n - 1);
      }
    }
  }

  class Table<F(==)> {
    /** The rows of the table by identity. */
    var rows: map<nat, Row<F>>
    /** The identity the store assigns to the next inserted row. */
    var nextId: nat

    ghost predicate Valid()
      reads this
    {
      forall k :: k in rows ==> k < nextId && rows[k].id == k
    }

    constructor ()
      ensures Valid() && rows == map[] && nextId == 0
    {
      rows := map[];
      nextId := 0;
    }

    method Insert(owner: string, fields: F, ok: bool) returns (error: bool)
      requires Valid()
      modifies this
      ensures Valid()
      ensures error == !ok
      ensures ok ==> old(nextId) !in old(rows) && nextId == old(nextId) + 1
                     && rows == Inserted(old(rows), old(nextId), owner, fields)
      ensures !ok ==> rows == old(rows) && nextId == old(nextId)
    {
      error := !ok;
      if ok {
        rows := rows[nextId := Row(nextId, owner, fields)];
        nextId := nextId + 1;
      }
    }

    method Update(id: nat, fields: F, ok: bool) returns (error: bool)
      requires Valid()
      modifies this
      ensures Valid() && nextId == old(nextId)
      ensures error == !ok
      ensures rows == if ok then Updated(old(rows), id, fields) else old(rows)
    {
      error := !ok;
      if ok && id in rows {
        rows := rows[id := rows[id].(fields := fields)];
      }
    }

    method Delete(id: nat, ok: bool) returns (error: bool)
      requires Valid()
      modifies this
      ensures Valid() && nextId == old(nextId)
      ensures error == !ok
      ensures rows == if ok then Deleted(old(rows), id) else old(rows)
    {
      error := !ok;
      if ok {
        rows := rows - {id};
      }
    }

    /** `select("*").order(key, { ascending })`: every row exactly once, ordered by `key`. */
    method Select(key: F -> string, ascending: bool, ok: bool) returns (resp: Response<seq<Row<F>>>)
      requires Valid()
      ensures resp.error == !ok
      ensures !ok ==> resp.data == None
      ensures ok ==> resp.data.Some?
                     && SortedBy(resp.data.value, (r: Row<F>) => key(r.fields), ascending)
                     && multiset(resp.data.value) == multiset(rows.Values)
    {
      if !ok {
        return Response(None, true);
      }
      var byKey := (r: Row<F>) => key(r.fields);
      var listing := RowsBelow(rows, nextId);
      RowsBelowListsEach(rows, nextId);
      assert ValuesBelow(rows, nextId) == rows.Values;
      SortBySorted(listing, byKey, ascending);
      resp := Response(Some(SortBy(listing, byKey, ascending)), false);
    }
  }
}
