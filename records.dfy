// The rows of the two tables (inventory and suppliers) and the JSON
// records that save_data writes and load_data reads back.
module Records {

  /** Supplier text given to a plant created without a supplier. */
  const NoSupplier: string := "No Supplier Assigned"

  /** One inventory table row: (ID, Name, Description, Quantity,
      Greenhouse Required, Supplier). */
  datatype PlantRow = PlantRow(
    id: int,
    name: string,
    description: string,
    quantity: int,
    greenhouse: string,
    supplier: string)

  /** One supplier table row: (name, phone number, address). */
  datatype SupplierRow = SupplierRow(name: string, phone: string, address: string)

  /** One object of plants.json. */
  datatype PlantRecord = PlantRecord(
    id: int,
    name: string,
    description: string,
    quantity: int,
    greenhouseRequired: string,
    supplier: string)

  /** One object of suppliers.json; plants_served is written empty and
      never read back. */
  datatype SupplierRecord = SupplierRecord(
    name: string,
    phoneNumber: string,
    address: string,
    plantsServed: seq<string>)

  function ToPlantRecord(row: PlantRow): PlantRecord
  {
    PlantRecord(row.id, row.name, row.description, row.quantity, row.greenhouse, row.supplier)
  }

  function ToPlantRow(rec: PlantRecord): PlantRow
  {
    PlantRow(rec.id, rec.name, rec.description, rec.quantity, rec.greenhouseRequired, rec.supplier)
  }

  function ToSupplierRecord(row: SupplierRow): SupplierRecord
  {
    SupplierRecord(row.name, row.phone, row.address, [])
  }

  function ToSupplierRow(rec: SupplierRecord): SupplierRow
  {
    SupplierRow(rec.name, rec.phoneNumber, rec.address)
  }

  /** The plant list save_data builds, one record per row, in table order. */
  function PlantRecords(rows: seq<PlantRow>): (r: seq<PlantRecord>)
    ensures |r| == |rows|
    decreases |rows|
  {
    if rows == [] then [] else PlantRecords(rows[..|rows| - 1]) + [ToPlantRecord(rows[|rows| - 1])]
  }

  /** The rows load_data inserts, one per record, in file order. */
  function PlantRows(recs: seq<PlantRecord>): (r: seq<PlantRow>)
    ensures |r| == |recs|
    decreases |recs|
  {
    if recs == [] then [] else PlantRows(recs[..|recs| - 1]) + [ToPlantRow(recs[|recs| - 1])]
  }

  function SupplierRecords(rows: seq<SupplierRow>): (r: seq<SupplierRecord>)
    ensures |r| == |rows|
    decreases |rows|
  {
    if rows == [] then [] else SupplierRecords(rows[..|rows| - 1]) + [ToSupplierRecord(rows[|rows| - 1])]
  }

  function SupplierRows(recs: seq<SupplierRecord>): (r: seq<SupplierRow>)
    ensures |r| == |recs|
    decreases |recs|
  {
    if recs == [] then [] else SupplierRows(recs[..|recs| - 1]) + [ToSupplierRow(recs[|recs| - 1])]
  }

  /** Saving the inventory table and loading it back gives the same rows. */
  lemma {:induction false} PlantRoundTrip(rows: seq<PlantRow>)
    ensures PlantRows(PlantRecords(rows)) == rows
    decreases |rows|
  {
    if rows != [] {
      var n := |rows| - 1;
      var recs := PlantRecords(rows);
      assert recs == PlantRecords(rows[..n]) + [ToPlantRecord(rows[n])];
      assert recs[..n] == PlantRecords(rows[..n]);
      assert PlantRows(recs) == PlantRows(recs[..n]) + [ToPlantRow(recs[n])];
      PlantRoundTrip(rows[..n]);
      assert rows == rows[..n] + [rows[n]];
    }
  }

  /** Loading plants.json and saving it again gives the same records. */
  lemma {:induction false} PlantRecordRoundTrip(recs: seq<PlantRecord>)
    ensures PlantRecords(PlantRows(recs)) == recs
    decreases |recs|
  {
    if recs != [] {
      var n := |recs| - 1;
      var rows := PlantRows(recs);
      assert rows == PlantRows(recs[..n]) + [ToPlantRow(recs[n])];
      assert rows[..n] == PlantRows(recs[..n]);
      assert PlantRecords(rows) == PlantRecords(rows[..n]) + [ToPlantRecord(rows[n])];
      PlantRecordRoundTrip(recs[..n]);
      assert recs == recs[..n] + [recs[n]];
    }
  }

  /** Saving the supplier table and loading it back gives the same rows. */
  lemma {:induction false} SupplierRoundTrip(rows: seq<SupplierRow>)
    ensures SupplierRows(SupplierRecords(rows)) == rows
    decreases |rows|
  {
    if rows != [] {
      var n := |rows| - 1;
      var recs := SupplierRecords(rows);
      assert recs == SupplierRecords(rows[..n]) + [ToSupplierRecord(rows[n])];
      assert recs[..n] == SupplierRecords(rows[..n]);
      assert SupplierRows(recs) == SupplierRows(recs[..n]) + [ToSupplierRow(recs[n])];
      SupplierRoundTrip(rows[..n]);
      assert rows == rows[..n] + [rows[n]];
    }
  }

  /** Loading suppliers.json and saving it again keeps every record except
      its plants_served list, which comes back empty. */
  lemma {:induction false} SupplierResave(recs: seq<SupplierRecord>)
    ensures |SupplierRecords(SupplierRows(recs))| == |recs|
    ensures forall i :: 0 <= i < |recs| ==>
      SupplierRecords(SupplierRows(recs))[i] == recs[i].(plantsServed := [])
    decreases |recs|
  {
    if recs != [] {
      var n := |recs| - 1;
      var rows := SupplierRows(recs);
      assert rows[..n] == SupplierRows(recs[..n]);
      SupplierResave(recs[..n]);
    }
  }

  /** Loading suppliers.json and saving it again reproduces the file exactly
      when every plants_served list is empty, which is what save_data writes. */
  lemma {:induction false} SupplierRecordRoundTrip(recs: seq<SupplierRecord>)
    ensures SupplierRecords(SupplierRows(recs)) == recs
        <==> forall i :: 0 <= i < |recs| ==> recs[i].plantsServed == []
  {
    SupplierResave(recs);
    var saved := SupplierRecords(SupplierRows(recs));
    if forall i :: 0 <= i < |recs| ==> recs[i].plantsServed == [] {
      assert forall i :: 0 <= i < |recs| ==> saved[i] == recs[i];
    }
    if saved == recs {
      assert forall i :: 0 <= i < |recs| ==> recs[i].plantsServed == saved[i].plantsServed;
    }
  }

  lemma PlantRowsStep(recs: seq<PlantRecord>, i: nat)
    requires i < |recs|
    ensures PlantRows(recs[..i + 1]) == PlantRows(recs[..i]) + [ToPlantRow(recs[i])]
  {
    assert recs[..i + 1][..i] == recs[..i];
  }

  lemma SupplierRowsStep(recs: seq<SupplierRecord>, i: nat)
    requires i < |recs|
    ensures SupplierRows(recs[..i + 1]) == SupplierRows(recs[..i]) + [ToSupplierRow(recs[i])]
  {
    assert recs[..i + 1][..i] == recs[..i];
  }
}
