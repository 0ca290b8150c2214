/** Sequences of user actions on the pages, each stated as one client method
    whose contract is what the pages promise for that sequence. */
module Scenarios {
  import opened Wrappers
  import opened Store
  import opened ResourcePage
  import opened EquipmentActions
  import opened EquipmentPage

  /** Opening a row for editing and cancelling writes nothing, calls nothing and
      keeps the list. */
  method EditThenCancel<Form, F(==)>(page: Page<Form, F>, item: Row<F>)
    requires page.Valid()
    modifies page
    ensures page.Valid()
    ensures !page.showForm && page.editing == None
    ensures page.items == old(page.items) && page.toasts == old(page.toasts) && page.calls == old(page.calls)
    ensures page.table.rows == old(page.table.rows)
  {
    page.OpenEdit(item);
    page.Cancel();
  }

  /** A list that shows the table holds no row with an identity the table lacks. */
  lemma ShownRowsAreStored<Form, F>(page: Page<Form, F>, id: nat)
    requires page.table.Valid() && page.ShowsTable() && id !in page.table.rows
    ensures forall r :: r in page.items ==> r.id != id
  {
    forall r | r in page.items
      ensures r.id != id
    {
      assert r in multiset(page.items);
      assert r in page.table.rows.Values;
    }
  }

  /** Deleting the same row twice: both deletes succeed (the second matches no
      row) and, once reloaded, the list no longer holds the row. */
  method DeleteTwice<Form, F(==)>(page: Page<Form, F>, id: nat)
    requires page.Valid()
    modifies page, page.table
    ensures page.Valid()
    ensures page.table.rows == Deleted(old(page.table.rows), id)
    ensures page.calls == old(page.calls) + [DeleteCall(id), ListCall, DeleteCall(id), ListCall]
    ensures page.toasts == old(page.toasts) + [SuccessToast(page.messages.deleted), SuccessToast(page.messages.deleted)]
    ensures forall r :: r in page.items ==> r.id != id
  {
    page.Delete(id, true, true, true);
    page.Delete(id, true, true, true);
    ShownRowsAreStored(page, id);
  }

  lemma OneElementSeq<T>(s: seq<T>, x: T)
    requires multiset(s) == multiset{x}
    ensures s == [x]
  {
    assert |s| == |multiset(s)| == 1;
    assert s[0] in multiset(s);
  }

  /** A fresh equipment page: the user opens the form, types a name and a type,
      leaves the status at its default and saves. The reloaded list holds
      exactly the new row, operational, owned by the user, with every optional
      column null. */
  method CreateExcavatorAlpha(user: User) returns (page: Page<EquipmentForm, EquipmentFields>)
    ensures fresh(page) && page.Valid()
    ensures !page.showForm && page.editing == None
    ensures page.calls == [ListCall, CreateCall, ListCall]
    ensures page.toasts == [SuccessToast("Equipment created successfully")]
    ensures page.items
            == [Row(0, user.id, EquipmentFields("Excavator Alpha", "Excavator", None, None, "operational", None, None))]
  {
    var table := new Table<EquipmentFields>();
    page := MountEquipmentPage(table, true);
    assert page.items == [] by {
      assert multiset(page.items) == multiset{};
    }
    page.OpenNew();
    var form := EquipmentFormFor(None).(name := "Excavator Alpha", kind := "Excavator");
    page.Submit(form, Some(user), true, true);
    var row := Row(0, user.id, EquipmentFields("Excavator Alpha", "Excavator", None, None, "operational", None, None));
    assert page.table.rows == map[0 := row];
    assert page.table.rows.Values == {row};
    OneElementSeq(page.items, row);
  }
}
