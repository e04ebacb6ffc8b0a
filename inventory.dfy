// The bookkeeping of InventoryApp: the inventory table, the supplier table
// and the alert pane, and every operation that changes them. Prompts and
// dialogs are replaced by the answers the operator gives; the current month
// is a parameter; a table selection is an optional row index.
module Inventory {
  import opened Text
  import opened Records
  import opened Alerts

  datatype Option<T> = None | Some(value: T)

  /** How an operation ended; every outcome but Done is one of the error
      messages (or the silent cancellation) of the source. */
  datatype Status =
    | Done
    | NoSelection
    | Cancelled
    | InvalidId
    | InvalidQuantity
    | InvalidGreenhouse
    | FieldsRequired
    | NameRequired
    | PhoneRequired
    | AddressRequired

  /** The columns of the inventory table. */
  datatype Field = IdField | NameField | DescriptionField | QuantityField | GreenhouseField | SupplierField

  /** The field picked in the update window and the value entered for it;
      None is a prompt or picker closed without a value, NoField an empty or
      unknown field name. */
  datatype Edit =
    | SetId(id: int)
    | SetName(name: Option<string>)
    | SetDescription(description: Option<string>)
    | SetQuantity(quantity: int)
    | SetGreenhouse(flag: string)
    | SetSupplier(choice: Option<string>)
    | NoField

  /** The operator's answers in the supplier step of add_plant: whether to
      create a supplier when none exists, the three add_supplier prompts, and
      the dropdown's text when OK is pressed (None when the picker window is
      closed instead). */
  datatype SupplierAnswer = SupplierAnswer(createSupplier: bool, newSupplier: SupplierRow, picked: Option<string>)

  predicate IsYes(flag: string)
  {
    Lower(flag) == "yes"
  }

  predicate ValidFlag(flag: string)
  {
    flag == "yes" || flag == "no"
  }

  /** The condition of check_greenhouse_alert: greenhouse season, and some
      plant whose Greenhouse Required column, lowercased, is "yes". */
  predicate GreenhouseNeeded(plants: seq<PlantRow>, month: Month)
  {
    InSeason(month) && exists j :: 0 <= j < |plants| && IsYes(plants[j].greenhouse)
  }

  /** The scan of check_greenhouse_alert, stopping at the first plant that
      needs a greenhouse. */
  method AnyGreenhousePlant(plants: seq<PlantRow>, month: Month) returns (found: bool)
    ensures found <==> GreenhouseNeeded(plants, month)
  {
    found := false;
    if InSeason(month) {
      var i := 0;
      while i < |plants|
        invariant 0 <= i <= |plants|
        invariant forall j :: 0 <= j < i ==> !IsYes(plants[j].greenhouse)
      {
        if IsYes(plants[i].greenhouse) {
          found := true;
          break;
        }
        i := i + 1;
      }
    }
  }

  // ---------- update_plant ----------

  function FieldOf(edit: Edit): Option<Field>
  {
    match edit
    case SetId(_) => Some(IdField)
    case SetName(_) => Some(NameField)
    case SetDescription(_) => Some(DescriptionField)
    case SetQuantity(_) => Some(QuantityField)
    case SetGreenhouse(_) => Some(GreenhouseField)
    case SetSupplier(_) => Some(SupplierField)
    case NoField => None
  }

  /** The edit is written to the row: the value passed its check (a positive
      ID, a non-negative quantity, "yes" or "no") or was given at all. */
  predicate Applies(edit: Edit)
  {
    match edit
    case SetId(id) => id > 0
    case SetName(name) => name.Some?
    case SetDescription(description) => description.Some?
    case SetQuantity(quantity) => quantity >= 0
    case SetGreenhouse(flag) => ValidFlag(flag)
    case SetSupplier(choice) => choice.Some?
    case NoField => false
  }

  /** Two rows agree on every column other than f (on all when f is None). */
  predicate SameExcept(a: PlantRow, b: PlantRow, f: Option<Field>)
  {
    && (f != Some(IdField) ==> a.id == b.id)
    && (f != Some(NameField) ==> a.name == b.name)
    && (f != Some(DescriptionField) ==> a.description == b.description)
    && (f != Some(QuantityField) ==> a.quantity == b.quantity)
    && (f != Some(GreenhouseField) ==> a.greenhouse == b.greenhouse)
    && (f != Some(SupplierField) ==> a.supplier == b.supplier)
  }

  /** The selected row after an edit. */
  function Edited(row: PlantRow, edit: Edit): (r: PlantRow)
    ensures SameExcept(row, r, FieldOf(edit))
    ensures !Applies(edit) ==> r == row
    ensures edit.SetId? && Applies(edit) ==> r.id == edit.id
    ensures edit.SetName? && Applies(edit) ==> r.name == edit.name.value
    ensures edit.SetDescription? && Applies(edit) ==> r.description == edit.description.value
    ensures edit.SetQuantity? && Applies(edit) ==> r.quantity == edit.quantity
    ensures edit.SetGreenhouse? && Applies(edit) ==> r.greenhouse == edit.flag
    ensures edit.SetSupplier? && Applies(edit) ==> r.supplier == edit.choice.value
  {
    match edit
    case SetId(id) => if id > 0 then row.(id := id) else row
    case SetName(name) => if name.Some? then row.(name := name.value) else row
    case SetDescription(d) => if d.Some? then row.(description := d.value) else row
    case SetQuantity(q) => if q >= 0 then row.(quantity := q) else row
    case SetGreenhouse(flag) => if ValidFlag(flag) then row.(greenhouse := flag) else row
    case SetSupplier(choice) => if choice.Some? then row.(supplier := choice.value) else row
    case NoField => row
  }

  /** The alert list after an edit of the row: a new quantity runs
      remove_alert and the stock rule under the plant's name; a new name runs
      remove_alert for the old name and the stock rule under the new one; a
      new greenhouse flag is a flip; no other edit touches the alerts. */
  function EditAlerts(lines: seq<string>, row: PlantRow, edit: Edit, month: Month): seq<string>
  {
    if !Applies(edit) then lines
    else match edit
      case SetName(name) => StockCheck(Without(lines, row.name), name.value, row.quantity)
      case SetQuantity(q) => StockCheck(Without(lines, row.name), row.name, q)
      case SetGreenhouse(flag) => GreenhouseFlip(lines, row.greenhouse, flag, row.name, month)
      case _ => lines
  }

  /** A rename drops every greenhouse line keyed to the old name (and the
      stock rule under the new name adds only a stock line or deletes more
      greenhouse lines), while the old name's stock lines stay behind. */
  lemma RenameAlerts(lines: seq<string>, row: PlantRow, newName: string, month: Month)
    ensures var r := EditAlerts(lines, row, SetName(Some(newName)), month);
      && (forall x :: x in r ==> !IsGreenhouseLineFor(x, row.name))
      && (CriticalLine(row.name, 0) in lines ==> CriticalLine(row.name, 0) in r)
  {
    var w := Without(lines, row.name);
    var r := EditAlerts(lines, row, SetName(Some(newName)), month);
    assert r == StockCheck(w, newName, row.quantity);
    forall x | x in r ensures !IsGreenhouseLineFor(x, row.name) {
      StockLinesAreNotGreenhouseLines(newName, row.quantity, row.name);
      WithoutMembership(lines, row.name, x);
      if row.quantity >= 5 {
        WithoutMembership(w, newName, x);
      }
    }
    if CriticalLine(row.name, 0) in lines {
      StockLinesAreNotGreenhouseLines(row.name, 0, row.name);
      StockLinesAreNotGreenhouseLines(row.name, 0, newName);
      WithoutMembership(lines, row.name, CriticalLine(row.name, 0));
      WithoutMembership(w, newName, CriticalLine(row.name, 0));
    }
  }

  /** A quantity change below 5 keeps every line but the plant's greenhouse
      lines and appends one stock line; from 5 on it only deletes the plant's
      greenhouse lines. */
  lemma QuantityAlerts(lines: seq<string>, row: PlantRow, q: int, month: Month)
    requires q >= 0
    ensures var r := EditAlerts(lines, row, SetQuantity(q), month);
      && (q == 0 ==> r == Without(lines, row.name) + [CriticalLine(row.name, 0)])
      && (0 < q < 5 ==> r == Without(lines, row.name) + [LowLine(row.name, q)])
      && (q >= 5 ==> r == Without(lines, row.name))
      && (forall x :: x in r ==> !IsGreenhouseLineFor(x, row.name))
  {
    var w := Without(lines, row.name);
    var r := EditAlerts(lines, row, SetQuantity(q), month);
    if q >= 5 {
      WithoutIdempotent(lines, row.name);
    }
    forall x | x in r ensures !IsGreenhouseLineFor(x, row.name) {
      StockLinesAreNotGreenhouseLines(row.name, q, row.name);
      WithoutMembership(lines, row.name, x);
    }
  }

  // ---------- update_supplier ----------

  /** A plant row after the supplier named from is renamed to: */
  function Relink(row: PlantRow, from: string, to: string): PlantRow
  {
    if row.supplier == from then row.(supplier := to) else row
  }

  /** The inventory table after a supplier rename: every row whose supplier
      is from now names to; every other row and every other column is as it
      was; the order and number of rows are kept. */
  function Relinked(plants: seq<PlantRow>, from: string, to: string): (r: seq<PlantRow>)
    ensures |r| == |plants|
    ensures forall i :: 0 <= i < |plants| ==>
      && SameExcept(plants[i], r[i], Some(SupplierField))
      && r[i].supplier == (if plants[i].supplier == from then to else plants[i].supplier)
    decreases |plants|
  {
    if plants == [] then []
    else [Relink(plants[0], from, to)] + Relinked(plants[1..], from, to)
  }

  /** Renaming a supplier and renaming it back restores the table, provided
      no plant already named the new supplier. */
  lemma RelinkRoundTrip(plants: seq<PlantRow>, from: string, to: string)
    requires forall i :: 0 <= i < |plants| ==> plants[i].supplier != to
    ensures Relinked(Relinked(plants, from, to), to, from) == plants
  {
    var back := Relinked(Relinked(plants, from, to), to, from);
    assert forall i :: 0 <= i < |plants| ==> back[i] == plants[i];
  }

  /** A supplier answer is given: not None and not blank after strip(). */
  predicate Given(answer: Option<string>)
  {
    answer.Some? && !IsBlank(answer.value)
  }

  // ---------- add_plant ----------

  /** The supplier text the new plant gets: the picked text; the sentinel when
      no supplier existed and none was picked; "" when suppliers existed but
      the picker was closed. */
  function ChosenSupplier(existing: seq<SupplierRow>, answer: SupplierAnswer): string
  {
    if |existing| == 0 then
      if answer.createSupplier && answer.picked.Some? then answer.picked.value else NoSupplier
    else if answer.picked.Some? then answer.picked.value else ""
  }

  /** The "no supplier assigned" alert is raised: no supplier existed and the
      plant ends up with the sentinel. */
  predicate MissingSupplier(existing: seq<SupplierRow>, answer: SupplierAnswer)
  {
    |existing| == 0 && ChosenSupplier(existing, answer) == NoSupplier
  }

  /** With no supplier on file, a declined offer, or an accepted offer whose
      picker is closed, leaves the plant on the sentinel and raises the
      alert; when suppliers exist the alert is never raised, whatever is
      picked. */
  lemma SupplierStepOutcome(existing: seq<SupplierRow>, answer: SupplierAnswer)
    ensures |existing| == 0 && !answer.createSupplier ==>
      ChosenSupplier(existing, answer) == NoSupplier && MissingSupplier(existing, answer)
    ensures |existing| == 0 && answer.createSupplier && answer.picked.None? ==>
      ChosenSupplier(existing, answer) == NoSupplier && MissingSupplier(existing, answer)
    ensures |existing| > 0 ==> !MissingSupplier(existing, answer)
  {
  }

  /** How f"{name}" renders an answer, None included. */
  function NameText(name: Option<string>): string
  {
    if name.Some? then name.value else "None"
  }

  /** The three checks the add_plant prompts repeat until they pass. */
  predicate ValidNewPlant(id: int, quantity: int, greenhouse: string)
  {
    id > 0 && quantity >= 0 && ValidFlag(greenhouse)
  }

  class InventoryApp {
    var plants: seq<PlantRow>
    var suppliers: seq<SupplierRow>
    var alerts: seq<string>

    /** At most one fleet-wide greenhouse line is ever on the alert pane. */
    ghost predicate Valid()
      reads this
    {
      multiset(alerts)[FleetLine] <= 1
    }

    /** Start-up: load_data inserts each stored plant and runs the stock rule
        for it, runs the greenhouse check, then inserts each stored supplier. */
    constructor Load(plantRecords: seq<PlantRecord>, supplierRecords: seq<SupplierRecord>, month: Month)
      ensures Valid()
      ensures plants == PlantRows(plantRecords)
      ensures suppliers == SupplierRows(supplierRecords)
      ensures alerts == FleetToggled(StockChecks([], plants), GreenhouseNeeded(plants, month))
    {
      plants := [];
      suppliers := [];
      alerts := [];
      new;
      LoadPlants(plantRecords);
      assert plants == PlantRows(plantRecords);
      ghost var checked := alerts;
      CheckGreenhouseAlert(month);
      assert alerts == FleetToggled(checked, GreenhouseNeeded(plants, month));
      LoadSuppliers(supplierRecords);
      assert suppliers == SupplierRows(supplierRecords);
    }

    /** The plant half of load_data: each record becomes a row, followed by
        the stock rule for that plant. */
    method LoadPlants(records: seq<PlantRecord>)
      requires Valid()
      modifies this
      ensures Valid()
      ensures plants == old(plants) + PlantRows(records)
      ensures alerts == StockChecks(old(alerts), PlantRows(records))
      ensures suppliers == old(suppliers)
    {
      ghost var startPlants, startAlerts := plants, alerts;
      var i := 0;
      while i < |records|
        invariant 0 <= i <= |records|
        invariant plants == startPlants + PlantRows(records[..i])
        invariant alerts == StockChecks(startAlerts, PlantRows(records[..i]))
        invariant suppliers == old(suppliers)
        invariant Valid()
      {
        var row := ToPlantRow(records[i]);
        PlantRowsStep(records, i);
        StockChecksStep(startAlerts, PlantRows(records[..i]), row);
        plants := plants + [row];
        CheckLowStockAlert(row.name, row.quantity);
        i := i + 1;
      }
      assert records[..i] == records;
    }

    /** The supplier half of load_data: each record becomes a row. */
    method LoadSuppliers(records: seq<SupplierRecord>)
      requires Valid()
      modifies this
      ensures Valid()
      ensures suppliers == old(suppliers) + SupplierRows(records)
      ensures plants == old(plants) && alerts == old(alerts)
    {
      ghost var startSuppliers := suppliers;
      var j := 0;
      while j < |records|
        invariant 0 <= j <= |records|
        invariant suppliers == startSuppliers + SupplierRows(records[..j])
        invariant plants == old(plants) && alerts == old(alerts)
      {
        SupplierRowsStep(records, j);
        suppliers := suppliers + [ToSupplierRow(records[j])];
        j := j + 1;
      }
      assert records[..j] == records;
    }

    /** The plant half of save_data. */
    method SavePlants() returns (records: seq<PlantRecord>)
      ensures records == PlantRecords(plants)
      ensures PlantRows(records) == plants
    {
      records := [];
      var i := 0;
      while i < |plants|
        invariant 0 <= i <= |plants|
        invariant records == PlantRecords(plants[..i])
      {
        assert plants[..i + 1][..i] == plants[..i];
        records := records + [ToPlantRecord(plants[i])];
        i := i + 1;
      }
      assert plants[..i] == plants;
      PlantRoundTrip(plants);
    }

    /** The supplier half of save_data. */
    method SaveSuppliers() returns (records: seq<SupplierRecord>)
      ensures records == SupplierRecords(suppliers)
      ensures SupplierRows(records) == suppliers
      ensures forall i :: 0 <= i < |records| ==> records[i].plantsServed == []
    {
      records := [];
      var i := 0;
      while i < |suppliers|
        invariant 0 <= i <= |suppliers|
        invariant records == SupplierRecords(suppliers[..i])
        invariant forall k :: 0 <= k < |records| ==> records[k].plantsServed == []
      {
        assert suppliers[..i + 1][..i] == suppliers[..i];
        records := records + [ToSupplierRecord(suppliers[i])];
        i := i + 1;
      }
      assert suppliers[..i] == suppliers;
      SupplierRoundTrip(suppliers);
    }

    /** remove_alert: deletes, from the last line to the first, every line
        that starts with "GREENHOUSE ALERT:" and contains Plant '<name>'. */
    method RemoveAlert(name: string)
      requires Valid()
      modifies this
      ensures Valid()
      ensures alerts == Without(old(alerts), name)
      ensures plants == old(plants) && suppliers == old(suppliers)
    {
      var snapshot := alerts;
      // k - 1 is the Python loop index i, running from size - 1 down to 0
      var k: nat := |snapshot|;
      while k > 0
        invariant k <= |snapshot|
        invariant alerts == snapshot[..k] + Without(snapshot[k..], name)
        invariant plants == old(plants) && suppliers == old(suppliers)
      {
        WithoutStep(snapshot, k, name, alerts);
        var i := k - 1;
        if IsGreenhouseLineFor(alerts[i], name) {
          alerts := alerts[..i] + alerts[i + 1..];
        }
        k := i;
      }
      assert snapshot[0..] == snapshot;
      FleetCountWithout(snapshot, name);
    }

    /** check_low_stock_alert for a plant with this name and quantity. */
    method CheckLowStockAlert(name: string, quantity: int)
      requires Valid()
      modifies this
      ensures Valid()
      ensures alerts == StockCheck(old(alerts), name, quantity)
      ensures plants == old(plants) && suppliers == old(suppliers)
    {
      LinesDifferFromFleetLine(name, quantity);
      if quantity == 0 {
        alerts := alerts + [CriticalLine(name, quantity)];
      } else if quantity < 5 {
        alerts := alerts + [LowLine(name, quantity)];
      } else {
        RemoveAlert(name);
      }
    }

    /** check_greenhouse_alert for the current month. */
    method CheckGreenhouseAlert(month: Month)
      requires Valid()
      modifies this
      ensures Valid()
      ensures alerts == FleetToggled(old(alerts), GreenhouseNeeded(plants, month))
      ensures plants == old(plants) && suppliers == old(suppliers)
    {
      var needed := AnyGreenhousePlant(plants, month);
      FleetToggledPresence(alerts, needed);
      if FleetLine in alerts && !needed {
        var k := FirstIndex(alerts, FleetLine);
        alerts := alerts[..k] + alerts[k + 1..];
      } else if needed && FleetLine !in alerts {
        alerts := alerts + [FleetLine];
      }
    }

    /** add_supplier with the three answers given. */
    method AddSupplier(supplier: SupplierRow)
      requires Valid()
      modifies this
      ensures Valid()
      ensures suppliers == old(suppliers) + [supplier]
      ensures plants == old(plants) && alerts == old(alerts)
    {
      suppliers := suppliers + [supplier];
    }

    /** The supplier step of add_plant (the selection flow of lines 310-376):
        with no supplier, either add_supplier and the picker, or the sentinel;
        otherwise the picker. The "no supplier" alert carries the name as
        the f-string renders it. */
    method ChooseSupplier(name: Option<string>, answer: SupplierAnswer) returns (supplier: string)
      requires Valid()
      modifies this
      ensures Valid()
      ensures supplier == ChosenSupplier(old(suppliers), answer)
      ensures suppliers == old(suppliers)
        + (if |old(suppliers)| == 0 && answer.createSupplier then [answer.newSupplier] else [])
      ensures alerts == old(alerts)
        + (if MissingSupplier(old(suppliers), answer) then [NoSupplierLine(NameText(name))] else [])
      ensures plants == old(plants)
    {
      LinesDifferFromFleetLine(NameText(name), 0);
      FleetCountAppend(alerts, NoSupplierLine(NameText(name)));
      if |suppliers| == 0 {
        if answer.createSupplier {
          AddSupplier(answer.newSupplier);
          // add_supplier always inserts a row, so the picker opens; closing
          // it keeps the sentinel
          supplier := if answer.picked.Some? then answer.picked.value else NoSupplier;
          if supplier == NoSupplier {
            alerts := alerts + [NoSupplierLine(NameText(name))];
          }
        } else {
          supplier := NoSupplier;
          alerts := alerts + [NoSupplierLine(NameText(name))];
        }
      } else {
        supplier := if answer.picked.Some? then answer.picked.value else "";
      }
    }

    /** add_plant with the operator's answers. An ID, quantity or greenhouse
        answer that the prompts would refuse ends the attempt before anything
        changes. The supplier step (a new supplier, the "no supplier" alert)
        takes effect even when the name or description is then missing. */
    method AddPlant(id: int, name: Option<string>, description: Option<string>, quantity: int,
                    greenhouse: string, answer: SupplierAnswer) returns (status: Status)
      requires Valid()
      modifies this
      ensures Valid()
      ensures !ValidNewPlant(id, quantity, greenhouse) ==>
        status in {InvalidId, InvalidQuantity, InvalidGreenhouse}
        && plants == old(plants) && suppliers == old(suppliers) && alerts == old(alerts)
      ensures ValidNewPlant(id, quantity, greenhouse) ==>
        && (status == Done <==> name.Some? && description.Some?)
        && (status != Done ==> status == FieldsRequired)
      ensures ValidNewPlant(id, quantity, greenhouse) ==>
        suppliers == old(suppliers)
          + (if |old(suppliers)| == 0 && answer.createSupplier then [answer.newSupplier] else [])
      ensures ValidNewPlant(id, quantity, greenhouse) && status == FieldsRequired ==>
        && plants == old(plants)
        && alerts == old(alerts)
             + (if MissingSupplier(old(suppliers), answer) then [NoSupplierLine(NameText(name))] else [])
      ensures status == Done ==>
        && plants == old(plants)
             + [PlantRow(id, NameText(name), NameText(description), quantity, greenhouse,
                         ChosenSupplier(old(suppliers), answer))]
        && alerts == old(alerts)
             + (if MissingSupplier(old(suppliers), answer) then [NoSupplierLine(NameText(name))] else [])
             + (if quantity < 5 then [LowLine(NameText(name), quantity)] else [])
    {
      if id <= 0 {
        return InvalidId;
      }
      if quantity < 0 {
        return InvalidQuantity;
      }
      if !ValidFlag(greenhouse) {
        return InvalidGreenhouse;
      }
      var supplier := ChooseSupplier(name, answer);
      if name.None? || description.None? {
        return FieldsRequired;
      }
      InsertPlant(PlantRow(id, name.value, description.value, quantity, greenhouse, supplier));
      status := Done;
    }

    /** The last step of add_plant: the row is inserted, and a quantity
        below 5 (0 included) gets the low-stock line. */
    method InsertPlant(row: PlantRow)
      requires Valid()
      modifies this
      ensures Valid()
      ensures plants == old(plants) + [row]
      ensures alerts == old(alerts) + (if row.quantity < 5 then [LowLine(row.name, row.quantity)] else [])
      ensures suppliers == old(suppliers)
    {
      plants := plants + [row];
      if row.quantity < 5 {
        LinesDifferFromFleetLine(row.name, row.quantity);
        FleetCountAppend(alerts, LowLine(row.name, row.quantity));
        alerts := alerts + [LowLine(row.name, row.quantity)];
      }
    }

    /** update_plant on the selected row. */
    method UpdatePlant(selected: Option<nat>, edit: Edit, month: Month) returns (status: Status)
      requires Valid()
      requires selected.Some? ==> selected.value < |plants|
      modifies this
      ensures Valid()
      ensures suppliers == old(suppliers)
      ensures selected.None? ==> status == NoSelection && plants == old(plants) && alerts == old(alerts)
      ensures selected.Some? ==>
        && (status == Done <==> Applies(edit))
        && plants == old(plants)[selected.value := Edited(old(plants)[selected.value], edit)]
        && alerts == EditAlerts(old(alerts), old(plants)[selected.value], edit, month)
    {
      if selected.None? {
        return NoSelection;
      }
      var i := selected.value;
      var row := plants[i];
      match edit {
      case SetId(id) =>
        if id <= 0 {
          return InvalidId;
        }
        plants := plants[i := row.(id := id)];
      case SetName(name) =>
        if name.None? {
          return Cancelled;
        }
        plants := plants[i := row.(name := name.value)];
        RemoveAlert(row.name);
        CheckLowStockAlert(name.value, row.quantity);
      case SetDescription(description) =>
        if description.None? {
          return Cancelled;
        }
        plants := plants[i := row.(description := description.value)];
      case SetQuantity(quantity) =>
        if quantity < 0 {
          return InvalidQuantity;
        }
        RemoveAlert(row.name);
        CheckLowStockAlert(row.name, quantity);
        plants := plants[i := row.(quantity := quantity)];
      case SetGreenhouse(flag) =>
        if !ValidFlag(flag) {
          return InvalidGreenhouse;
        }
        ChangeGreenhouse(row.name, row.greenhouse, flag, month);
        plants := plants[i := row.(greenhouse := flag)];
      case SetSupplier(choice) =>
        if choice.None? {
          return Cancelled;
        }
        plants := plants[i := row.(supplier := choice.value)];
      case NoField =>
        return Cancelled;
      }
      status := Done;
    }

    /** The alert side of a greenhouse flag change in update_plant: yes to
        no runs remove_alert, no to yes in season appends the plant's line. */
    method ChangeGreenhouse(name: string, oldFlag: string, flag: string, month: Month)
      requires Valid()
      modifies this
      ensures Valid()
      ensures alerts == GreenhouseFlip(old(alerts), oldFlag, flag, name, month)
      ensures plants == old(plants) && suppliers == old(suppliers)
    {
      FleetCountGreenhouseFlip(alerts, oldFlag, flag, name, month);
      if Lower(oldFlag) == "yes" && Lower(flag) == "no" {
        RemoveAlert(name);
      } else if Lower(oldFlag) == "no" && Lower(flag) == "yes" {
        if InSeason(month) {
          alerts := alerts + [PlantGreenhouseLine(name)];
        }
      }
    }

    /** delete_plant: removes the selected row and nothing else; its alerts
        stay on the pane. */
    method DeletePlant(selected: Option<nat>) returns (status: Status)
      requires Valid()
      requires selected.Some? ==> selected.value < |plants|
      modifies this
      ensures Valid()
      ensures suppliers == old(suppliers) && alerts == old(alerts)
      ensures selected.None? ==> status == NoSelection && plants == old(plants)
      ensures selected.Some? ==>
        status == Done && plants == old(plants)[..selected.value] + old(plants)[selected.value + 1..]
    {
      if selected.None? {
        return NoSelection;
      }
      plants := plants[..selected.value] + plants[selected.value + 1..];
      status := Done;
    }

    /** remove_supplier: removes the selected supplier row; plants that named
        it keep the name. Without a selection it does nothing. */
    method RemoveSupplier(selected: Option<nat>)
      requires Valid()
      requires selected.Some? ==> selected.value < |suppliers|
      modifies this
      ensures Valid()
      ensures plants == old(plants) && alerts == old(alerts)
      ensures selected.None? ==> suppliers == old(suppliers)
      ensures selected.Some? ==>
        suppliers == old(suppliers)[..selected.value] + old(suppliers)[selected.value + 1..]
    {
      if selected.Some? {
        suppliers := suppliers[..selected.value] + suppliers[selected.value + 1..];
      }
    }

    /** update_supplier: each of the three answers must be given and not
        blank, checked in prompt order; then the selected row is rewritten and
        every plant naming the old supplier is relinked to the new name. */
    method UpdateSupplier(selected: Option<nat>, newName: Option<string>, newPhone: Option<string>,
                          newAddress: Option<string>) returns (status: Status)
      requires Valid()
      requires selected.Some? ==> selected.value < |suppliers|
      modifies this
      ensures Valid()
      ensures alerts == old(alerts)
      ensures status == Done <==> selected.Some? && Given(newName) && Given(newPhone) && Given(newAddress)
      ensures status != Done ==> plants == old(plants) && suppliers == old(suppliers)
      ensures status == NameRequired <==> selected.Some? && !Given(newName)
      ensures status == Done ==>
        && suppliers == old(suppliers)[selected.value := SupplierRow(newName.value, newPhone.value, newAddress.value)]
        && plants == Relinked(old(plants), old(suppliers)[selected.value].name, newName.value)
    {
      if selected.None? {
        return NoSelection;
      }
      if !Given(newName) {
        return NameRequired;
      }
      if !Given(newPhone) {
        return PhoneRequired;
      }
      if !Given(newAddress) {
        return AddressRequired;
      }
      var from := suppliers[selected.value].name;
      suppliers := suppliers[selected.value := SupplierRow(newName.value, newPhone.value, newAddress.value)];
      var i := 0;
      while i < |plants|
        invariant 0 <= i <= |plants| == |old(plants)|
        invariant suppliers == old(suppliers)[selected.value := SupplierRow(newName.value, newPhone.value, newAddress.value)]
        invariant forall k :: 0 <= k < i ==> plants[k] == Relink(old(plants)[k], from, newName.value)
        invariant forall k :: i <= k < |plants| ==> plants[k] == old(plants)[k]
        invariant alerts == old(alerts)
      {
        if plants[i].supplier == from {
          plants := plants[i := plants[i].(supplier := newName.value)];
        }
        i := i + 1;
      }
      var target := Relinked(old(plants), from, newName.value);
      assert forall k :: 0 <= k < |plants| ==> plants[k] == target[k];
      status := Done;
    }
  }

  /** The alert list after load_data's stock rule for each row, in order. */
  function StockChecks(lines: seq<string>, rows: seq<PlantRow>): seq<string>
    decreases |rows|
  {
    if rows == [] then lines
    else
      var last := rows[|rows| - 1];
      StockCheck(StockChecks(lines, rows[..|rows| - 1]), last.name, last.quantity)
  }

  lemma StockChecksStep(lines: seq<string>, rows: seq<PlantRow>, row: PlantRow)
    ensures StockChecks(lines, rows + [row]) == StockCheck(StockChecks(lines, rows), row.name, row.quantity)
  {
    assert (rows + [row])[..|rows|] == rows;
  }
}
