# Root 31 inventory: the alert and table bookkeeping

This project models the core of a nursery inventory program. The program
keeps three things on screen:

- the inventory table, with rows (ID, Name, Description, Quantity,
  Greenhouse Required, Supplier);
- the supplier table, with rows (name, phone number, address);
- the alert pane, an ordered list of text lines.

Every operator action rewrites these in place. In the model they are the
three `seq` fields of the class `Inventory.InventoryApp`. Each operation of
the program is a method of that class. Its `ensures` clauses state the new
tables and the new alert list in terms of the old ones. The alert rules are
functions of the module `Alerts`, and lemmas there say what those functions
mean.

- `Text`: the Python string operations the code relies on. These are
  `startswith`, the substring test `in`, `lower()` compared with
  "yes"/"no", `strip() == ""` and `str()` of an integer.
- `Records`: the table rows, the JSON records of `plants.json` and
  `suppliers.json`, the mapping between them, and its round trips.
- `Alerts`: the alert line texts and the rules behind the alert pane. These
  are the stock rule, the deletion done by `remove_alert`, the fleet-wide
  greenhouse toggle and the greenhouse flag change.
- `Inventory`: the class with the operations. These are load, save,
  `remove_alert`, `check_low_stock_alert`, `check_greenhouse_alert`,
  `add_supplier`, `add_plant`, `update_plant`, `delete_plant`,
  `remove_supplier` and `update_supplier`.

The current month is a parameter (`Month`, 1 to 12). A table selection is
an `Option<nat>` row index. Each answer the operator gives in a dialog is a
parameter. A dialog closed without an answer is `None`.

The class invariant `Valid()` says that the alert pane holds at most one
fleet-wide greenhouse line. Every method keeps it.

Where one might expect otherwise, the model follows the code:

- The stock rule only appends lines. A CRITICAL or low-stock line is never
  replaced or removed, so duplicate lines build up. `remove_alert` deletes
  only lines that start with `GREENHOUSE ALERT:`, whatever the comment at
  final.py:214 says (`StaleCriticalLineSurvives`, `RenameAlerts`).
- A quantity of 5 or more runs `remove_alert` for the plant. This deletes
  that plant's greenhouse lines (`StockCheckOutcome`).
- `add_plant` appends the "low on stock" line for every quantity below 5,
  0 included. It never calls the stock rule or the greenhouse check.
- Adding, updating or deleting a plant never re-runs the fleet-wide
  greenhouse check. Only loading does.
- Plant IDs are not checked for uniqueness, not even at creation.
- Renaming a plant drops the old name's greenhouse lines, then runs the
  stock rule under the new name. Below 5 that appends a stock line; from 5
  on it also drops the new name's greenhouse lines. The old name's stock
  lines stay (`RenameAlerts`).

## Model

| member | source | states |
|---|---|---|
| Text.ContainsAt | final.py:224 | the substring test finds an occurrence of the key at any offset |
| Text.NotContainsWithoutChar | final.py:224 | a text that lacks a character of the key never passes the substring test |
| Records.PlantRoundTrip | final.py:231-241 | rows saved by save_data load back by load_data as the same rows, in the same order |
| Records.PlantRecordRoundTrip | final.py:166-174 | plant records loaded and saved again are the same records |
| Records.SupplierRoundTrip | final.py:248-256 | supplier rows saved and loaded back are the same rows; plants_served is dropped |
| Records.SupplierResave | final.py:191-197 | loading suppliers.json and saving it again keeps every record in place and in order, with plants_served emptied |
| Records.SupplierRecordRoundTrip | final.py:191-197 | loading and re-saving suppliers.json reproduces it exactly when every plants_served is empty |
| Alerts.WithoutStep | final.py:223-225 | one step of the backward delete loop: deleting a matching line i, or keeping any other line, extends the filtered suffix by one |
| Alerts.WithoutCount | final.py:219-225 | remove_alert keeps no copy of a line that starts with GREENHOUSE ALERT: and contains Plant '<name>', and every copy of any other line |
| Alerts.WithoutMembership | final.py:224 | a line survives remove_alert exactly when it was there and fails the test |
| Alerts.WithoutConcat | final.py:223-225 | remove_alert filters line by line, so the survivors keep their relative order |
| Alerts.WithoutNoMatch | final.py:223-225 | an alert list with no matching line is left unchanged |
| Alerts.WithoutIdempotent | final.py:219-225 | remove_alert twice with the same name equals remove_alert once |
| Alerts.FleetNeverMatches | final.py:540 | remove_alert never deletes the fleet-wide line, whatever the plant name |
| Alerts.PlantGreenhouseLineMatches | final.py:467 | the per-plant greenhouse line is one that remove_alert deletes for that plant |
| Alerts.StockLinesAreNotGreenhouseLines | final.py:208-212 | CRITICAL, low-stock and no-supplier lines (the last inserted at final.py:346-354) are never deleted by remove_alert |
| Alerts.LinesDifferFromFleetLine | final.py:540 | no stock, supplier or per-plant greenhouse line equals the fleet-wide line |
| Alerts.FleetCountWithout | final.py:224 | remove_alert keeps the number of fleet-wide lines |
| Alerts.StockCheckOutcome | final.py:203-216 | quantity 0 appends exactly the CRITICAL line and 1..4 exactly the low-stock line, after the untouched old lines; 5 or more appends nothing and deletes only the plant's greenhouse lines |
| Alerts.StaleCriticalLineSurvives | final.py:214-216 | after remove_alert and the stock rule with any quantity, an earlier CRITICAL line for the plant is still there |
| Alerts.FleetCountStockCheck | final.py:203-216 | the stock rule keeps the number of fleet-wide lines |
| Alerts.FirstIndex | final.py:543 | alerts.index returns a position of the line with no earlier copy |
| Alerts.FleetToggledPresence | final.py:539-547 | starting from at most one fleet-wide line, afterwards it is present exactly when needed, and at most once |
| Alerts.FleetToggledKeepsOthers | final.py:539-547 | the greenhouse check leaves every other line in place and in order |
| Alerts.FleetToggledIdempotent | final.py:526-547 | a second greenhouse check with the same plants and month changes nothing |
| Alerts.GreenhouseFlipOutcome | final.py:458-467 | yes to no leaves no greenhouse line for the plant and keeps all other lines; no to yes in season appends exactly one line keyed to the plant; any other change leaves the list as it is |
| Alerts.GreenhouseFlipRoundTrip | final.py:458-467 | flipping no to yes in season and back leaves what one remove_alert for the plant would leave |
| Alerts.FleetCountGreenhouseFlip | final.py:458-467 | a greenhouse flag change keeps the number of fleet-wide lines |
| Inventory.AnyGreenhousePlant | final.py:527-536 | the early-exit scan finds a plant exactly when the month is October to May and some plant's flag, lowercased, is "yes" |
| Inventory.Edited | final.py:485-495 | an edit that passed its check or was given writes its value into the column at fields.index(selected_field), for every field, and changes no other column; any other edit leaves the row as it was |
| Inventory.RenameAlerts | final.py:497-501 | after a rename no greenhouse line keyed to the old name remains, while the old name's CRITICAL line stays |
| Inventory.QuantityAlerts | final.py:437-448 | a quantity change removes the plant's greenhouse lines and then appends the CRITICAL line at 0, the low-stock line at 1..4, nothing from 5 |
| Inventory.Relinked | final.py:589-595 | a supplier rename rewrites the supplier column of exactly the plants that named the old supplier; other columns, rows, order and count are kept |
| Inventory.RelinkRoundTrip | final.py:589-595 | renaming a supplier and renaming it back restores the table when no plant named the new supplier before |
| Inventory.SupplierStepOutcome | final.py:310-354 | with no supplier on file, a declined offer, or an accepted offer whose picker is closed, gives "No Supplier Assigned" and raises the alert; when suppliers exist the alert never is |
| Inventory.InventoryApp.Load | final.py:157-200 | start-up inserts the stored plants, applies the stock rule per plant, runs the greenhouse check, inserts the stored suppliers, and leaves at most one fleet-wide line |
| Inventory.InventoryApp.LoadPlants | final.py:164-175 | each stored plant becomes one row, in file order, and the stock rule runs for it after its row is inserted; suppliers are untouched |
| Inventory.InventoryApp.LoadSuppliers | final.py:189-197 | each stored supplier becomes one row, in file order; plants and alerts are untouched |
| Inventory.InventoryApp.SavePlants | final.py:231-241 | the saved plant list is one record per row, in table order, and loads back as the same table |
| Inventory.InventoryApp.SaveSuppliers | final.py:248-256 | the saved supplier list is one record per row with empty plants_served, and loads back as the same table |
| Inventory.InventoryApp.RemoveAlert | final.py:219-225 | the backward delete loop leaves exactly the filtered list and touches neither table |
| Inventory.InventoryApp.CheckLowStockAlert | final.py:203-216 | the alert pane becomes the stock rule applied to it; the tables are unchanged |
| Inventory.InventoryApp.CheckGreenhouseAlert | final.py:526-547 | the alert pane becomes the fleet toggle of the old pane, with the need computed from the plants and the month |
| Inventory.InventoryApp.AddSupplier | final.py:518-524 | the supplier row is appended; nothing else changes |
| Inventory.InventoryApp.AddPlant | final.py:274-387 | a refused ID, quantity or flag changes nothing; otherwise the supplier step takes effect; then the row is appended with the chosen supplier, or nothing more happens when the name or description is missing; a low-stock line is appended for quantity below 5 |
| Inventory.InventoryApp.ChooseSupplier | final.py:310-376 | with no supplier, accepting the offer appends the new supplier and takes the picked one; declining or closing the picker gives "No Supplier Assigned" with the no-supplier alert; with suppliers, the picked one or "" when the picker is closed; plants are untouched |
| Inventory.InventoryApp.InsertPlant | final.py:382-385 | the row is appended, and the low-stock line is appended exactly when the quantity is below 5; suppliers are untouched |
| Inventory.InventoryApp.UpdatePlant | final.py:390-504 | without a selection nothing changes; otherwise only the selected row becomes Edited, and the alerts follow the field's rule |
| Inventory.InventoryApp.ChangeGreenhouse | final.py:458-467 | the alert pane becomes the greenhouse flip of the old pane: remove_alert for yes to no, the plant's line for no to yes in season, nothing otherwise |
| Inventory.InventoryApp.DeletePlant | final.py:510-516 | exactly the selected plant row is removed; suppliers and alerts are untouched |
| Inventory.InventoryApp.RemoveSupplier | final.py:550-554 | exactly the selected supplier row is removed; plants keep the supplier text, and alerts are untouched |
| Inventory.InventoryApp.UpdateSupplier | final.py:557-598 | a missing or blank name, phone or address changes nothing; otherwise only the selected supplier row is rewritten and the plants are relinked; the alerts are untouched |

## Left out

- The tkinter widgets are not modelled: windows, tabs, tables, scrollbars, the alert listbox widget, dialogs and message boxes. They are replaced by the answers they deliver and by the Status an operation returns.
- Inventory.InventoryApp.AddPlant and Inventory.InventoryApp.UpdatePlant: the prompts that repeat until the ID is positive, the quantity is non-negative and the flag is "yes" or "no" are modelled as one attempt. A refused attempt ends with an error status and no change, because in the source no state changes before those prompts pass.
- Inventory.InventoryApp.AddPlant: the branch at final.py:347-350 is not modelled. It is unreachable, because add_supplier always inserts a row, so the picker always opens after a supplier is created.
- Inventory.InventoryApp.AddSupplier takes three texts. A cancelled prompt inside add_supplier gives `None`, which the widget renders as text. That rendering is not modelled.
- Inventory.InventoryApp.Load: file I/O, JSON encoding and the creation of missing or empty files are not modelled (final.py:160-162, 185-187). Neither is a load that stops part-way on a malformed record. It keeps the earlier rows and their alerts. When the record's quantity fails int() (final.py:204), the record's own row was already inserted (final.py:170), so it stays too.
- Every operation that changes a table calls save_data at its end. Persistence is not modelled, beyond the record mapping in SavePlants and SaveSuppliers. The supplier path of update_plant returns without saving; this is not modelled either.
- The ID and the quantity are integers in rows and records. The tables and plants.json hold them as widget text, which save_data writes back as `values[0]` and `values[3]` (final.py:235, 238). The int() parsing of that text is not modelled: the quantity parse of the stock rule (final.py:204) and the ID parse that fills the update prompt (final.py:419). Neither is text that fails to parse. The text written into an alert line is the integer's decimal rendering.
- `datetime.now()` is replaced by the month parameter. The date label is display only.
- A selection of several rows acts on the first selected row. The model takes a single row index.
- `mainloop`, the window-close handler `on_closing` and the duplicate OK button of the update window (final.py:506-508) are not modelled. They are interface plumbing.
- `lower()` is modelled on ASCII letters only. Its result is only compared with "yes" and "no". No non-ASCII character lowers to one of those letters, so the comparisons are exact.
