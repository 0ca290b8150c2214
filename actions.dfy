/** What every file under lib/actions does, once: read the form, normalise it
    into a row payload with JavaScript's `||`, check the caller for inserts,
    call the store, throw on a store error, and revalidate the page's cache. */
module Actions {
  import opened Wrappers
  import opened Ordering
  import opened Store

  /** How a server action ends abnormally: `redirect(path)` or `throw new Error(message)`.
      Both reach the caller as a thrown exception. */
  datatype ActionError = Redirect(path: string) | Thrown(message: string)

  datatype Result<T> = Ok(value: T) | Err(error: ActionError)

  /** The per-resource constants of one actions file. */
  datatype ServerActions<!Form, !F> = ServerActions(
    payload: Form -> F,          // the record built from the submitted form
    noUser: ActionError,         // what a create does without an authenticated caller
    revalidate: Option<string>,  // the path handed to revalidatePath after a mutation
    createFailed: string,
    updateFailed: string,
    deleteFailed: string,
    fetchFailed: string,
    sortKey: F -> string,        // the column of order(...)
    ascending: bool)

  /** `s || null`: the empty string is stored as null. */
  function OrNull(s: string): (r: Option<string>)
    ensures r.None? <==> s == ""
    ensures r.Some? ==> r.value == s
  {
    if s == "" then None else Some(s)
  }

  /** `parseInt(s) || 0`: NaN and 0 both become 0. */
  function IntOrZero(n: Option<int>): (r: int)
    ensures r == 0 <==> n == None || n == Some(0)
    ensures r != 0 ==> n == Some(r)
  {
    match n
    case Some(v) => v
    case None => 0
  }

  /** `parseInt(s) || null`: NaN and 0 both become null. */
  function IntOrNull(n: Option<int>): (r: Option<int>)
    ensures r.None? <==> n == None || n == Some(0)
    ensures r.Some? ==> r == n && r.value != 0
  {
    if n == Some(0) then None else n
  }

  /** `parseFloat(s) || null`: NaN and 0 both become null. */
  function RealOrNull(n: Option<real>): (r: Option<real>)
    ensures r.None? <==> n == None || n == Some(0.0)
    ensures r.Some? ==> r == n && r.value != 0.0
  {
    if n == Some(0.0) then None else n
  }

  /** `data || []`: a null result set is an empty list. */
  function OrEmpty<T>(data: Option<seq<T>>): (r: seq<T>)
    ensures data.None? ==> r == []
    ensures data.Some? ==> r == data.value
  {
    data.GetOr([])
  }

  /** The create action: no caller means no insert; a store error throws and skips revalidation. */
  method Create<Form, F(==)>(a: ServerActions<Form, F>, table: Table<F>, user: Option<User>, form: Form, ok: bool)
    returns (r: Result<Option<string>>)
    requires table.Valid()
    modifies table
    ensures table.Valid()
    ensures user.None? ==> r == Err(a.noUser) && table.rows == old(table.rows) && table.nextId == old(table.nextId)
    ensures user.Some? && !ok ==> r == Err(Thrown(a.createFailed))
                                  && table.rows == old(table.rows) && table.nextId == old(table.nextId)
    ensures user.Some? && ok ==> r == Ok(a.revalidate) && old(table.nextId) !in old(table.rows)
                                 && table.rows == Inserted(old(table.rows), old(table.nextId), user.value.id, a.payload(form))
  {
    if user.None? {
      return Err(a.noUser);
    }
    var error := table.Insert(user.value.id, a.payload(form), ok);
    if error {
      return Err(Thrown(a.createFailed));
    }
    return Ok(a.revalidate);
  }

  /** The update action: no caller check, and only the fields of row `id` change. */
  method Update<Form, F(==)>(a: ServerActions<Form, F>, table: Table<F>, id: nat, form: Form, ok: bool)
    returns (r: Result<Option<string>>)
    requires table.Valid()
    modifies table
    ensures table.Valid() && table.nextId == old(table.nextId)
    ensures r == if ok then Ok(a.revalidate) else Err(Thrown(a.updateFailed))
    ensures table.rows == if ok then Updated(old(table.rows), id, a.payload(form)) else old(table.rows)
  {
    var error := table.Update(id, a.payload(form), ok);
    if error {
      return Err(Thrown(a.updateFailed));
    }
    return Ok(a.revalidate);
  }

  /** The delete action. */
  method Delete<Form, F(==)>(a: ServerActions<Form, F>, table: Table<F>, id: nat, ok: bool)
    returns (r: Result<Option<string>>)
    requires table.Valid()
    modifies table
    ensures table.Valid() && table.nextId == old(table.nextId)
    ensures r == if ok then Ok(a.revalidate) else Err(Thrown(a.deleteFailed))
    ensures table.rows == if ok then Deleted(old(table.rows), id) else old(table.rows)
  {
    var error := table.Delete(id, ok);
    if error {
      return Err(Thrown(a.deleteFailed));
    }
    return Ok(a.revalidate);
  }

  /** The list action: every row once, in the resource's order, or a thrown error. */
  method List<Form, F(==)>(a: ServerActions<Form, F>, table: Table<F>, ok: bool) returns (r: Result<seq<Row<F>>>)
    requires table.Valid()
    ensures r.Ok? <==> ok
    ensures r.Err? ==> r.error == Thrown(a.fetchFailed)
    ensures r.Ok? ==> SortedBy(r.value, (row: Row<F>) => a.sortKey(row.fields), a.ascending)
                      && multiset(r.value) == multiset(table.rows.Values)
  {
    var resp := table.Select(a.sortKey, a.ascending, ok);
    if resp.error {
      return Err(Thrown(a.fetchFailed));
    }
    return Ok(OrEmpty(resp.data));
  }
}
