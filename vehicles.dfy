/** The Vehicles screen: its vehicle list, the add form's draft, the edit
    dialog's draft and selection, and the handlers that change them. */
module Vehicles {
  import opened Forms
  import opened RecordList

  /** Everything a vehicle holds besides its id; also the shape of both drafts.
      `year` is the empty marker or a number; `status` is free text (the select
      offers Active, Maintenance and Inactive). */
  datatype VehicleDraft = VehicleDraft(
    make: string,
    model: string,
    year: Numeric,
    vin: string,
    status: string)

  type Vehicle = Row<VehicleDraft>

  /** The text inputs of both forms, by their element id. */
  datatype VehicleField = Make | Model | Year | Vin

  const IdPrefix := "V"
  const AddAlert := "Please fill in all fields for the new vehicle."
  const SaveAlert := "Please fill in all fields."

  /** The draft both forms start from and the add form returns to. */
  const BlankDraft := VehicleDraft("", "", Blank, "", "Active")

  /** The vehicles the screen starts with. */
  const Seed: seq<Vehicle> := [
    Row("V001", VehicleDraft("Ford", "Transit", Num(2022.0), "1FTRECHARGEEXPRESSA", "Active")),
    Row("V002", VehicleDraft("Mercedes", "Sprinter", Num(2021.0), "WDBRECHARGEEXPRESSB", "Maintenance")),
    Row("V003", VehicleDraft("Chevrolet", "Express", Num(2023.0), "1GCGSRECHARGEEXPRESSC", "Active"))
  ]

  /** The draft after typing `value` into `field`; `number` is what `value`
      parses to. Only the named field changes, and the year stays the empty
      marker when the text is empty. */
  function WithInput(d: VehicleDraft, field: VehicleField, value: string, number: real): (r: VehicleDraft)
    ensures r.make == (if field == Make then value else d.make)
    ensures r.model == (if field == Model then value else d.model)
    ensures r.year == (if field == Year then FromText(value, number) else d.year)
    ensures r.vin == (if field == Vin then value else d.vin)
    ensures r.status == d.status
  {
    match field
    case Make => d.(make := value)
    case Model => d.(model := value)
    case Year => d.(year := if value == "" then Blank else Num(number))
    case Vin => d.(vin := value)
  }

  /** The required fields are filled: make, model and vin are not the empty
      string and the year is not the empty marker. The status is not checked
      and a year of 0 passes. */
  predicate Complete(d: VehicleDraft)
  {
    d.make != "" && d.model != "" && d.year != Blank && d.vin != ""
  }

  /** Every stored vehicle has a numeric year. */
  predicate YearsNumeric(rows: seq<Vehicle>)
  {
    forall k :: 0 <= k < |rows| ==> rows[k].fields.year.Num?
  }

  class VehiclesPage {
    var vehicles: seq<Vehicle>
    var addForm: VehicleDraft
    var editForm: VehicleDraft
    var editing: Option<Vehicle>
    var isEditOpen: bool

    ghost predicate Valid()
      reads this
    {
      YearsNumeric(vehicles)
    }

    constructor ()
      ensures Valid()
      ensures vehicles == Seed && addForm == BlankDraft && editForm == BlankDraft
      ensures editing == None && !isEditOpen
    {
      vehicles := Seed;
      addForm := BlankDraft;
      editForm := BlankDraft;
      editing := None;
      isEditOpen := false;
    }

    /** A keystroke in one of the add form's text inputs. */
    method AddInputChange(field: VehicleField, value: string, number: real)
      modifies this`addForm
      ensures addForm == WithInput(old(addForm), field, value, number)
    {
      addForm := WithInput(addForm, field, value, number);
    }

    /** A choice in the add form's status select: only the status changes. */
    method AddSelectChange(value: string)
      modifies this`addForm
      ensures addForm == old(addForm).(status := value)
    {
      addForm := addForm.(status := value);
    }

    /** The Add Vehicle button, at time `now`. An incomplete draft raises the
      alert and changes nothing; otherwise the draft is appended under a
      timestamp id and the form is reset. */
    method AddVehicle(now: nat) returns (outcome: Outcome)
      requires Valid()
      modifies this`vehicles, this`addForm
      ensures Valid()
      ensures outcome == if Complete(old(addForm)) then Done else Alert(AddAlert)
      ensures Complete(old(addForm)) ==>
                vehicles == old(vehicles) + [Row(NewId(IdPrefix, now), old(addForm))]
                && addForm == BlankDraft
      ensures !Complete(old(addForm)) ==> vehicles == old(vehicles) && addForm == old(addForm)
    {
      if !Complete(addForm) {
        return Alert(AddAlert);
      }
      // The draft's year is a number here, so converting it again is the identity.
      vehicles := vehicles + [Row(NewId(IdPrefix, now), addForm)];
      addForm := BlankDraft;
      outcome := Done;
    }

    /** The Edit button of a row: select it, copy its make, model, year, vin and
      status into the edit draft and open the dialog. */
    method OpenEdit(vehicle: Vehicle)
      modifies this`editing, this`editForm, this`isEditOpen
      ensures editing == Some(vehicle) && isEditOpen
      ensures editForm == vehicle.fields
    {
      editing := Some(vehicle);
      editForm := VehicleDraft(vehicle.fields.make, vehicle.fields.model, vehicle.fields.year,
                               vehicle.fields.vin, vehicle.fields.status);
      isEditOpen := true;
    }

    /** The edit dialog opened or closed by the dialog itself; the selection is kept. */
    method SetEditOpen(open: bool)
      modifies this`isEditOpen
      ensures isEditOpen == open
    {
      isEditOpen := open;
    }

    /** A keystroke in one of the edit dialog's text inputs. */
    method EditInputChange(field: VehicleField, value: string, number: real)
      modifies this`editForm
      ensures editForm == WithInput(old(editForm), field, value, number)
    {
      editForm := WithInput(editForm, field, value, number);
    }

    /** A choice in the edit dialog's status select: only the status changes. */
    method EditSelectChange(value: string)
      modifies this`editForm
      ensures editForm == old(editForm).(status := value)
    {
      editForm := editForm.(status := value);
    }

    /** The Save Changes button. With no selection or an incomplete draft it
      raises the alert and changes nothing; otherwise every vehicle with the
      selected id gets the draft's fields, keeping its id, and the dialog
      closes with the selection cleared. */
    method SaveEdit() returns (outcome: Outcome)
      requires Valid()
      modifies this`vehicles, this`isEditOpen, this`editing
      ensures Valid()
      ensures outcome == if old(editing).Some? && Complete(editForm) then Done else Alert(SaveAlert)
      ensures outcome == Done ==>
                vehicles == ReplaceId(old(vehicles), old(editing).value.id, editForm)
                && !isEditOpen && editing == None
      ensures outcome != Done ==>
                vehicles == old(vehicles) && isEditOpen == old(isEditOpen) && editing == old(editing)
    {
      if editing.None? || !Complete(editForm) {
        return Alert(SaveAlert);
      }
      vehicles := ReplaceId(vehicles, editing.value.id, editForm);
      isEditOpen := false;
      editing := None;
      outcome := Done;
    }

    /** The Delete button of a row, `confirmed` being the answer to the
      confirmation prompt: removes every vehicle with that row's id. */
    method Delete(target: Vehicle, confirmed: bool)
      requires Valid()
      modifies this`vehicles
      ensures Valid()
      ensures vehicles == if confirmed then WithoutId(old(vehicles), target.id) else old(vehicles)
    {
      if confirmed {
        vehicles := WithoutId(vehicles, target.id);
      }
    }
  }

  /** The seed vehicles have distinct ids and numeric years. */
  lemma SeedWellFormed()
    ensures UniqueIds(Seed) && YearsNumeric(Seed)
  {
  }

  /** A text change to a field other than the year never touches the year, and a
      change to the year empties it exactly when the text is empty. */
  lemma YearInput(d: VehicleDraft, value: string, number: real)
    ensures WithInput(d, Year, value, number).year == Blank <==> value == ""
    ensures forall f: VehicleField :: f != Year ==> WithInput(d, f, value, number).year == d.year
  {
  }

  /** Only emptiness is checked: a year of 0 and any status pass, and clearing
      any one required field fails. */
  lemma CompleteIsEmptinessOnly(d: VehicleDraft, status: string)
    requires Complete(d)
    ensures Complete(d.(year := Num(0.0))) && Complete(d.(status := status))
    ensures !Complete(d.(make := "")) && !Complete(d.(model := ""))
    ensures !Complete(d.(year := Blank)) && !Complete(d.(vin := ""))
  {
  }

  /** Opening a stored vehicle for edit and saving at once leaves the list as it
      was, when ids are unique. */
  lemma OpenThenSaveKeepsList(rows: seq<Vehicle>, vehicle: Vehicle)
    requires UniqueIds(rows) && vehicle in rows
    ensures ReplaceId(rows, vehicle.id, vehicle.fields) == rows
  {
  }
}
