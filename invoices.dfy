/** The Invoices screen: its invoice list, the create form's draft, the edit
    dialog's draft and selection, and the handlers that change them. */
module Invoices {
  import opened Forms
  import opened RecordList

  /** Everything an invoice holds besides its id; also the shape of both drafts.
      `amount` is the empty marker or a number; `status` is free text (the
      select offers Paid, Pending and Overdue). */
  datatype InvoiceDraft = InvoiceDraft(
    client: string,
    amount: Numeric,
    date: string,
    dueDate: string,
    description: string,
    status: string)

  type Invoice = Row<InvoiceDraft>

  /** The text inputs of both forms, by their element id. */
  datatype InvoiceField = Client | Amount | Date | DueDate | Description

  const IdPrefix := "INV"
  const MissingFieldsAlert := "Please fill in Client, Amount, Invoice Date, and Due Date."

  /** The draft both forms start from and the create form returns to. */
  const BlankDraft := InvoiceDraft("", Blank, "", "", "", "Pending")

  /** The invoices the screen starts with. */
  const Seed: seq<Invoice> := [
    Row("INV001", InvoiceDraft("Acme Corp", Num(1200.50), "2024-07-15", "2024-08-15", "Web Development Services", "Paid")),
    Row("INV002", InvoiceDraft("Globex Inc", Num(850.00), "2024-07-20", "2024-08-20", "Consulting Hours", "Pending")),
    Row("INV003", InvoiceDraft("Stark Industries", Num(2500.75), "2024-07-22", "2024-08-01", "Hardware Supplies", "Overdue"))
  ]

  /** The draft after typing `value` into `field`; `number` is what `value`
      parses to. Only the named field changes, and the amount stays the empty
      marker when the text is empty. */
  function WithInput(d: InvoiceDraft, field: InvoiceField, value: string, number: real): (r: InvoiceDraft)
    ensures r.client == (if field == Client then value else d.client)
    ensures r.amount == (if field == Amount then FromText(value, number) else d.amount)
    ensures r.date == (if field == Date then value else d.date)
    ensures r.dueDate == (if field == DueDate then value else d.dueDate)
    ensures r.description == (if field == Description then value else d.description)
    ensures r.status == d.status
  {
    match field
    case Client => d.(client := value)
    case Amount => d.(amount := if value == "" then Blank else Num(number))
    case Date => d.(date := value)
    case DueDate => d.(dueDate := value)
    case Description => d.(description := value)
  }

  /** The required fields are filled: client, date and due date are not the
      empty string and the amount is not the empty marker. Blank-only text
      passes; the description is not checked. */
  predicate Complete(d: InvoiceDraft)
  {
    d.client != "" && d.amount != Blank && d.date != "" && d.dueDate != ""
  }

  /** Every stored invoice has a numeric amount. */
  predicate AmountsNumeric(rows: seq<Invoice>)
  {
    forall k :: 0 <= k < |rows| ==> rows[k].fields.amount.Num?
  }

  class InvoicesPage {
    var invoices: seq<Invoice>
    var addForm: InvoiceDraft
    var editForm: InvoiceDraft
    var editing: Option<Invoice>
    var isEditOpen: bool
    var viewing: Option<Invoice>
    var isViewOpen: bool

    ghost predicate Valid()
      reads this
    {
      AmountsNumeric(invoices)
    }

    constructor ()
      ensures Valid()
      ensures invoices == Seed && addForm == BlankDraft && editForm == BlankDraft
      ensures editing == None && !isEditOpen && viewing == None && !isViewOpen
    {
      invoices := Seed;
      addForm := BlankDraft;
      editForm := BlankDraft;
      editing := None;
      isEditOpen := false;
      viewing := None;
      isViewOpen := false;
    }

    /** A keystroke in one of the create form's text inputs. */
    method AddInputChange(field: InvoiceField, value: string, number: real)
      modifies this`addForm
      ensures addForm == WithInput(old(addForm), field, value, number)
    {
      addForm := WithInput(addForm, field, value, number);
    }

    /** A choice in the create form's status select. */
    method AddStatusChange(value: string)
      modifies this`addForm
      ensures addForm == old(addForm).(status := value)
    {
      addForm := addForm.(status := value);
    }

    /** The Create button, at time `now`. An incomplete draft raises the alert
      and changes nothing; otherwise the draft is appended under a fresh
      timestamp id and the form is reset. */
    method CreateInvoice(now: nat) returns (outcome: Outcome)
      requires Valid()
      modifies this`invoices, this`addForm
      ensures Valid()
      ensures outcome == if Complete(old(addForm)) then Done else Alert(MissingFieldsAlert)
      ensures Complete(old(addForm)) ==>
                invoices == old(invoices) + [Row(NewId(IdPrefix, now), old(addForm))]
                && addForm == BlankDraft
      ensures !Complete(old(addForm)) ==> invoices == old(invoices) && addForm == old(addForm)
    {
      if !Complete(addForm) {
        return Alert(MissingFieldsAlert);
      }
      // The draft's amount is a number here, so converting it again is the identity.
      invoices := invoices + [Row(NewId(IdPrefix, now), addForm)];
      addForm := BlankDraft;
      outcome := Done;
    }

    /** The View button of a row. */
    method OpenView(invoice: Invoice)
      modifies this`viewing, this`isViewOpen
      ensures viewing == Some(invoice) && isViewOpen
    {
      viewing := Some(invoice);
      isViewOpen := true;
    }

    /** The Edit button of a row: select it, copy its fields into the edit
      draft and open the dialog. */
    method OpenEdit(invoice: Invoice)
      modifies this`editing, this`editForm, this`isEditOpen
      ensures editing == Some(invoice) && isEditOpen
      ensures editForm == invoice.fields
    {
      editing := Some(invoice);
      editForm := InvoiceDraft(invoice.fields.client, invoice.fields.amount, invoice.fields.date,
                               invoice.fields.dueDate, invoice.fields.description, invoice.fields.status);
      isEditOpen := true;
    }

    /** The edit dialog opened or closed by the dialog itself (its close button
      or the overlay); the selection is kept. */
    method SetEditOpen(open: bool)
      modifies this`isEditOpen
      ensures isEditOpen == open
    {
      isEditOpen := open;
    }

    /** A keystroke in one of the edit dialog's text inputs. */
    method EditInputChange(field: InvoiceField, value: string, number: real)
      modifies this`editForm
      ensures editForm == WithInput(old(editForm), field, value, number)
    {
      editForm := WithInput(editForm, field, value, number);
    }

    /** A choice in the edit dialog's status select. */
    method EditStatusChange(value: string)
      modifies this`editForm
      ensures editForm == old(editForm).(status := value)
    {
      editForm := editForm.(status := value);
    }

    /** The Save Changes button. With no selection or an incomplete draft it
      raises the alert and changes nothing; otherwise every invoice with the
      selected id gets the draft's fields, keeping its id, and the dialog
      closes with the selection cleared. */
    method SaveEdit() returns (outcome: Outcome)
      requires Valid()
      modifies this`invoices, this`isEditOpen, this`editing
      ensures Valid()
      ensures outcome == if old(editing).Some? && Complete(editForm) then Done else Alert(MissingFieldsAlert)
      ensures outcome == Done ==>
                invoices == ReplaceId(old(invoices), old(editing).value.id, editForm)
                && !isEditOpen && editing == None
      ensures outcome != Done ==>
                invoices == old(invoices) && isEditOpen == old(isEditOpen) && editing == old(editing)
    {
      if editing.None? || !Complete(editForm) {
        return Alert(MissingFieldsAlert);
      }
      invoices := ReplaceId(invoices, editing.value.id, editForm);
      isEditOpen := false;
      editing := None;
      outcome := Done;
    }

    /** The Delete button of a row, `confirmed` being the answer to the
      confirmation prompt: removes every invoice with that row's id. */
    method Delete(target: Invoice, confirmed: bool)
      requires Valid()
      modifies this`invoices
      ensures Valid()
      ensures invoices == if confirmed then WithoutId(old(invoices), target.id) else old(invoices)
    {
      if confirmed {
        invoices := WithoutId(invoices, target.id);
      }
    }
  }

  /** The seed invoices have distinct ids and numeric amounts. */
  lemma SeedWellFormed()
    ensures UniqueIds(Seed) && AmountsNumeric(Seed)
  {
  }

  /** The create form starts empty, so pressing Create at once raises the alert. */
  lemma BlankDraftIncomplete()
    ensures !Complete(BlankDraft)
  {
  }

  /** A text change to a non-amount field never touches the amount, and a change
      to the amount empties it exactly when the text is empty. */
  lemma AmountInput(d: InvoiceDraft, value: string, number: real)
    ensures WithInput(d, Amount, value, number).amount == Blank <==> value == ""
    ensures forall f: InvoiceField :: f != Amount ==> WithInput(d, f, value, number).amount == d.amount
  {
  }

  /** Only emptiness is checked: a draft of spaces with any description passes,
      and clearing any one required field fails. */
  lemma CompleteIsEmptinessOnly(d: InvoiceDraft)
    requires Complete(d)
    ensures Complete(d.(description := ""))
    ensures Complete(InvoiceDraft(" ", Num(0.0), " ", " ", "", ""))
    ensures !Complete(d.(client := "")) && !Complete(d.(amount := Blank))
    ensures !Complete(d.(date := "")) && !Complete(d.(dueDate := ""))
  {
  }

  /** Opening a stored invoice for edit and saving at once leaves the list as it
      was, when ids are unique. */
  lemma OpenThenSaveKeepsList(rows: seq<Invoice>, invoice: Invoice)
    requires UniqueIds(rows) && invoice in rows
    ensures ReplaceId(rows, invoice.id, invoice.fields) == rows
  {
  }

  /** A save keeps every amount numeric when the saved draft is complete. */
  lemma SaveKeepsAmountsNumeric(rows: seq<Invoice>, id: string, d: InvoiceDraft)
    requires AmountsNumeric(rows) && Complete(d)
    ensures AmountsNumeric(ReplaceId(rows, id, d))
  {
  }
}
