/** The list/form state machine that the Inventory, Equipment and Financial
    pages each write out by hand: `showForm`, the row being edited, the loaded
    list, and the handlers that open, cancel, submit, delete and reload. Every
    handler runs as one atomic step; the store's outcome for each call it makes
    is a parameter. */
module ResourcePage {
  import opened Wrappers
  import opened Ordering
  import opened Store
  import opened Actions

  /** A toast: title, description, and whether it has the destructive variant. */
  datatype Toast = Toast(title: string, description: string, destructive: bool)

  function SuccessToast(description: string): Toast {
    Toast("Success", description, false)
  }

  function ErrorToast(description: string): Toast {
    Toast("Error", description, true)
  }

  /** The toast texts of one page. */
  datatype Messages = Messages(
    loadFailed: string,
    created: string,
    updated: string,
    saveFailed: string,
    deleted: string,
    deleteFailed: string)

  /** A call the page makes to its server actions. */
  datatype Call = CreateCall | UpdateCall(id: nat) | DeleteCall(id: nat) | ListCall

  class Page<Form, F(==)> {
    const actions: ServerActions<Form, F>
    const messages: Messages
    const table: Table<F>

    var showForm: bool
    var editing: Option<Row<F>>
    var items: seq<Row<F>>
    /** Every toast emitted so far, in order. */
    var toasts: seq<Toast>
    /** Every server action called so far, in order. */
    var calls: seq<Call>

    /** The form is open whenever a row is being edited. */
    ghost predicate Valid()
      reads this, table
    {
      table.Valid() && (editing.Some? ==> showForm)
    }

    /** The loaded list shows exactly the rows of the table, in the resource's order. */
    ghost predicate ShowsTable()
      reads this, table
    {
      SortedBy(items, (row: Row<F>) => actions.sortKey(row.fields), actions.ascending)
      && multiset(items) == multiset(table.rows.Values)
    }

    /** The component's initial state, before the mount effect has run. */
    constructor (actions: ServerActions<Form, F>, messages: Messages, table: Table<F>)
      requires table.Valid()
      ensures Valid()
      ensures this.actions == actions && this.messages == messages && this.table == table
      ensures !showForm && editing == None && items == [] && toasts == [] && calls == []
    {
      this.actions := actions;
      this.messages := messages;
      this.table := table;
      showForm := false;
      editing := None;
      items := [];
      toasts := [];
      calls := [];
    }

    /** loadItems: a failed load keeps the old list and emits one error toast. */
    method LoadItems(ok: bool)
      requires Valid()
      modifies this
      ensures Valid()
      ensures showForm == old(showForm) && editing == old(editing)
      ensures calls == old(calls) + [ListCall]
      ensures ok ==> ShowsTable() && toasts == old(toasts)
      ensures !ok ==> items == old(items) && toasts == old(toasts) + [ErrorToast(messages.loadFailed)]
    {
      calls := calls + [ListCall];
      var r := List(actions, table, ok);
      if r.Ok? {
        items := r.value;
      } else {
        toasts := toasts + [ErrorToast(messages.loadFailed)];
      }
    }

    /** The "Add" button: create mode, form open. */
    method OpenNew()
      requires Valid()
      modifies this
      ensures Valid()
      ensures showForm && editing == None
      ensures items == old(items) && toasts == old(toasts) && calls == old(calls)
    {
      editing := None;
      showForm := true;
    }

    /** The edit button of a row: edit mode for that row, form open. */
    method OpenEdit(item: Row<F>)
      requires Valid()
      modifies this
      ensures Valid()
      ensures showForm && editing == Some(item)
      ensures items == old(items) && toasts == old(toasts) && calls == old(calls)
    {
      editing := Some(item);
      showForm := true;
    }

    /** The form's Cancel button: closes the form without any call. */
    method Cancel()
      requires Valid()
      modifies this
      ensures Valid()
      ensures !showForm && editing == None
      ensures items == old(items) && toasts == old(toasts) && calls == old(calls)
    {
      showForm := false;
      editing := None;
    }

    /** handleSubmit: update the edited row by its id, or create one; never both.
        On success the form closes and the list is reloaded once; on failure only
        an error toast is added. */
    method Submit(form: Form, user: Option<User>, storeOk: bool, loadOk: bool)
      requires Valid()
      modifies this, table
      ensures Valid()
      ensures var saved := storeOk && (old(editing).Some? || user.Some?);
              var call := if old(editing).Some? then UpdateCall(old(editing).value.id) else CreateCall;
              && (saved ==>
                    && !showForm && editing == None
                    && calls == old(calls) + [call, ListCall]
                    && toasts == old(toasts)
                                 + [SuccessToast(if old(editing).Some? then messages.updated else messages.created)]
                                 + (if loadOk then [] else [ErrorToast(messages.loadFailed)])
                    && (loadOk ==> ShowsTable())
                    && (!loadOk ==> items == old(items)))
              && (!saved ==>
                    && showForm == old(showForm) && editing == old(editing) && items == old(items)
                    && calls == old(calls) + [call]
                    && toasts == old(toasts) + [ErrorToast(messages.saveFailed)]
                    && table.rows == old(table.rows))
      ensures old(editing).Some? ==>
                table.rows == if storeOk then Updated(old(table.rows), old(editing).value.id, actions.payload(form))
                              else old(table.rows)
      ensures old(editing).None? && user.Some? && storeOk ==>
                table.rows == Inserted(old(table.rows), old(table.nextId), user.value.id, actions.payload(form))
    {
      var wasEditing := editing.Some?;
      var saved := Dispatch(form, user, storeOk);
      Settle(saved, wasEditing, loadOk);
    }

    /** The `try` of handleSubmit up to the server action: update by the edited
        id, or create; records the call and reports whether it returned. */
    method Dispatch(form: Form, user: Option<User>, storeOk: bool) returns (saved: bool)
      requires Valid()
      modifies this, table
      ensures Valid()
      ensures saved == (storeOk && (editing.Some? || user.Some?))
      ensures showForm == old(showForm) && editing == old(editing) && items == old(items) && toasts == old(toasts)
      ensures calls == old(calls) + [if editing.Some? then UpdateCall(editing.value.id) else CreateCall]
      ensures editing.Some? ==>
                table.rows == if storeOk then Updated(old(table.rows), editing.value.id, actions.payload(form))
                              else old(table.rows)
      ensures editing.None? && !saved ==> table.rows == old(table.rows)
      ensures editing.None? && saved ==>
                table.rows == Inserted(old(table.rows), old(table.nextId), user.value.id, actions.payload(form))
    {
      var r: Result<Option<string>>;
      if editing.Some? {
        calls := calls + [UpdateCall(editing.value.id)];
        r := Update(actions, table, editing.value.id, form, storeOk);
      } else {
        calls := calls + [CreateCall];
        r := Create(actions, table, user, form, storeOk);
      }
      saved := r.Ok?;
    }

    /** The tail of handleSubmit, after the server action has returned or thrown:
        a success toast, the form closed and one reload; or an error toast alone. */
    method Settle(saved: bool, wasEditing: bool, loadOk: bool)
      requires Valid()
      modifies this
      ensures Valid()
      ensures saved ==>
                && !showForm && editing == None
                && calls == old(calls) + [ListCall]
                && toasts == old(toasts)
                             + [SuccessToast(if wasEditing then messages.updated else messages.created)]
                             + (if loadOk then [] else [ErrorToast(messages.loadFailed)])
                && (loadOk ==> ShowsTable())
                && (!loadOk ==> items == old(items))
      ensures !saved ==>
                && showForm == old(showForm) && editing == old(editing) && items == old(items)
                && calls == old(calls)
                && toasts == old(toasts) + [ErrorToast(messages.saveFailed)]
    {
      if saved {
        toasts := toasts + [SuccessToast(if wasEditing then messages.updated else messages.created)];
        showForm := false;
        editing := None;
        LoadItems(loadOk);
      } else {
        toasts := toasts + [ErrorToast(messages.saveFailed)];
      }
    }

    /** handleDelete: nothing happens unless the user confirms; a confirmed,
        successful delete reloads the list once. */
    method Delete(id: nat, confirmed: bool, storeOk: bool, loadOk: bool)
      requires Valid()
      modifies this, table
      ensures Valid()
      ensures showForm == old(showForm) && editing == old(editing)
      ensures !confirmed ==> items == old(items) && toasts == old(toasts) && calls == old(calls)
                             && table.rows == old(table.rows)
      ensures confirmed && storeOk ==>
                && table.rows == Deleted(old(table.rows), id)
                && calls == old(calls) + [DeleteCall(id), ListCall]
                && toasts == old(toasts) + [SuccessToast(messages.deleted)]
                             + (if loadOk then [] else [ErrorToast(messages.loadFailed)])
                && (loadOk ==> ShowsTable())
                && (!loadOk ==> items == old(items))
      ensures confirmed && !storeOk ==>
                && table.rows == old(table.rows) && items == old(items)
                && calls == old(calls) + [DeleteCall(id)]
                && toasts == old(toasts) + [ErrorToast(messages.deleteFailed)]
    {
      if confirmed {
        calls := calls + [DeleteCall(id)];
        var r := Actions.Delete(actions, table, id, storeOk);
        if r.Ok? {
          toasts := toasts + [SuccessToast(messages.deleted)];
          LoadItems(loadOk);
        } else {
          toasts := toasts + [ErrorToast(messages.deleteFailed)];
        }
      }
    }
  }
}
