/**
 * The flat-file store (csv_database.py) at the level of rows: each writer
 * emits a fixed header row and then one row of text cells per record, and
 * each reader skips the first row and rebuilds one record per remaining row.
 * A row is the list of cells the `csv` module hands over; opening files and
 * the module's quoting are outside the model.
 */
module CsvDatabase {
  import opened Wrappers
  import opened Text
  import opened DataStructures

  type Row = seq<string>

  /** Why a data row cannot be turned into a record. */
  datatype RowError =
    | WrongFieldCount   // unpacking the row into its columns raises ValueError
    | InvalidInteger    // `int(...)` raises ValueError

  /** Why a whole file cannot be read. */
  datatype TableError =
    | MissingHeader                        // `next(reader)` on an empty file
    | BadRow(index: nat, error: RowError)  // the first data row that fails, counted from 0

  const EmployeeHeader: Row := ["Name", "Password Hashed", "Employee ID", "Contact Info",
                                "Borrowed Equipment IDs", "Skill IDs", "Number of Lost Equipments", "Is Admin"]
  const EquipmentHeader: Row := ["Equipment ID", "Name", "Borrower ID", "Skill Requirements IDs", "Queue"]
  const SkillHeader: Row := ["Name", "Skill ID"]

  // ---------------------------------------------------------------- tables

  /** The rows a writer emits: the header, then one row per item in order. */
  function EncodeTable<T>(header: Row, items: seq<T>, encode: T -> Row): (rows: seq<Row>)
    ensures |rows| == |items| + 1 && rows[0] == header
    ensures forall k :: 0 <= k < |items| ==> rows[k + 1] == encode(items[k])
  {
    [header] + seq(|items|, k requires 0 <= k < |items| => encode(items[k]))
  }

  /**
   * Decoding the data rows in order, stopping at the first that fails.
   * Defined over prefixes, as the reader's loop appends one record per row.
   */
  function DecodeRows<T>(rows: seq<Row>, decode: Row -> Result<T, RowError>): (r: Result<seq<T>, TableError>)
    ensures r.Success? ==>
              |r.value| == |rows| && forall k :: 0 <= k < |rows| ==> decode(rows[k]) == Success(r.value[k])
    ensures r.Failure? ==>
              r.error.BadRow? && r.error.index < |rows| && decode(rows[r.error.index]) == Failure(r.error.error)
              && forall k :: 0 <= k < r.error.index ==> decode(rows[k]).Success?
  {
    if rows == [] then Success([])
    else
      var last := |rows| - 1;
      match DecodeRows(rows[..last], decode)
      case Failure(e) => Failure(e)
      case Success(items) =>
        match decode(rows[last])
        case Failure(e) => Failure(BadRow(last, e))
        case Success(item) => Success(items + [item])
  }

  /** What a reader returns: the first row is skipped whatever it holds. */
  function DecodeTable<T>(rows: seq<Row>, decode: Row -> Result<T, RowError>): (r: Result<seq<T>, TableError>)
    ensures rows == [] ==> r == Failure(MissingHeader)
    ensures rows != [] ==> (r.Success? <==> forall k :: 1 <= k < |rows| ==> decode(rows[k]).Success?)
    ensures r.Success? ==>
              |r.value| == |rows| - 1 && forall k :: 1 <= k < |rows| ==> decode(rows[k]) == Success(r.value[k - 1])
  {
    if rows == [] then Failure(MissingHeader) else DecodeRows(rows[1..], decode)
  }

  /** The writers' loop: header first, then one row per item. */
  method WriteTable<T>(header: Row, items: seq<T>, encode: T -> Row) returns (rows: seq<Row>)
    ensures rows == EncodeTable(header, items, encode)
  {
    rows := [header];
    for i := 0 to |items|
      invariant |rows| == i + 1 && rows[0] == header
      invariant forall k :: 0 <= k < i ==> rows[k + 1] == encode(items[k])
    {
      rows := rows + [encode(items[i])];
    }
  }

  /** The readers' loop: skip the header, then append one record per row; the first bad row aborts. */
  method ReadTable<T>(rows: seq<Row>, decode: Row -> Result<T, RowError>) returns (r: Result<seq<T>, TableError>)
    ensures r == DecodeTable(rows, decode)
  {
    if rows == [] {
      return Failure(MissingHeader);
    }
    var data := rows[1..];
    var items: seq<T> := [];
    for i := 0 to |data|
      invariant |items| == i
      invariant forall k :: 0 <= k < i ==> decode(data[k]) == Success(items[k])
    {
      var d := decode(data[i]);
      if d.Failure? {
        r := Failure(BadRow(i, d.error));
        ghost var spec := DecodeRows(data, decode);
        assert spec.Failure? && spec.error.index == i;
        return;
      }
      items := items + [d.value];
    }
    r := Success(items);
    ghost var spec := DecodeRows(data, decode);
    assert spec.Success?;
    assert spec.value == items;
  }

  /** Reading what a writer wrote gives back, row for row, what each row decodes to. */
  lemma TableRoundTrip<T>(header: Row, items: seq<T>, expected: seq<T>,
                          encode: T -> Row, decode: Row -> Result<T, RowError>)
    requires |expected| == |items|
    requires forall k :: 0 <= k < |items| ==> decode(encode(items[k])) == Success(expected[k])
    ensures DecodeTable(EncodeTable(header, items, encode), decode) == Success(expected)
  {
    var rows := EncodeTable(header, items, encode);
    var r := DecodeRows(rows[1..], decode);
    assert forall k :: 0 <= k < |items| ==> rows[1..][k] == encode(items[k]);
    if r.Failure? {
      assert false;
    }
    assert r.value == expected;
  }

  // ------------------------------------------------------------- employees

  /** An id list the store keeps intact: every id non-empty and free of commas. */
  predicate IsIdList(xs: seq<string>) {
    forall k :: 0 <= k < |xs| ==> IsListElement(xs[k])
  }

  /** One employee row, columns in header order. */
  function EncodeEmployee(e: Employee): (row: Row)
    ensures |row| == |EmployeeHeader|
  {
    [e.name, e.passwordHash, e.empId, e.contactInfo, Join(e.borrowedEquipIds), Join(e.skillIds),
     IntToText(e.numLostEquips), BoolToText(e.isAdmin)]
  }

  /** One employee from a row: lists split, the loss count parsed, the admin flag set by any non-empty text. */
  function DecodeEmployee(row: Row): (r: Result<Employee, RowError>)
    ensures r.Success? <==> |row| == 8 && ParseInt(row[6]).Some?
    ensures |row| != 8 ==> r == Failure(WrongFieldCount)
    ensures |row| == 8 && ParseInt(row[6]) == None ==> r == Failure(InvalidInteger)
    ensures r.Success? ==> r.value.isAdmin == (row[7] != "") && ParseInt(row[6]) == Some(r.value.numLostEquips)
  {
    if |row| != 8 then Failure(WrongFieldCount)
    else
      match ParseInt(row[6])
      case None => Failure(InvalidInteger)
      case Some(lost) =>
        Success(Employee(row[0], row[1], row[2], row[3], SplitList(row[4]), SplitList(row[5]), lost, ParseBool(row[7])))
  }

  /** An employee row reads back as the same employee, except that the admin flag always comes back true. */
  lemma EmployeeRowRoundTrip(e: Employee)
    requires IsIdList(e.borrowedEquipIds) && IsIdList(e.skillIds)
    ensures DecodeEmployee(EncodeEmployee(e)) == Success(e.(isAdmin := true))
  {
    ListFieldRoundTrip(e.borrowedEquipIds);
    ListFieldRoundTrip(e.skillIds);
    IntTextRoundTrip(e.numLostEquips);
  }

  /** write_employees_to_csv without the file. */
  method WriteEmployees(employees: seq<Employee>) returns (rows: seq<Row>)
    ensures rows == EncodeTable(EmployeeHeader, employees, EncodeEmployee)
  {
    rows := WriteTable(EmployeeHeader, employees, EncodeEmployee);
  }

  /** read_employees_from_csv without the file. */
  method ReadEmployees(rows: seq<Row>) returns (r: Result<seq<Employee>, TableError>)
    ensures r == DecodeTable(rows, DecodeEmployee)
  {
    r := ReadTable(rows, DecodeEmployee);
  }

  /** Every employee marked as an administrator, as a reload leaves them. */
  function AllAdmins(employees: seq<Employee>): (r: seq<Employee>)
    ensures |r| == |employees|
    ensures forall k :: 0 <= k < |r| ==> r[k] == employees[k].(isAdmin := true)
  {
    seq(|employees|, k requires 0 <= k < |employees| => employees[k].(isAdmin := true))
  }

  /** Writing then reading the employees keeps them all, in order, but makes every one an administrator. */
  lemma EmployeesRoundTrip(employees: seq<Employee>)
    requires forall k :: 0 <= k < |employees| ==>
               IsIdList(employees[k].borrowedEquipIds) && IsIdList(employees[k].skillIds)
    ensures DecodeTable(EncodeTable(EmployeeHeader, employees, EncodeEmployee), DecodeEmployee)
            == Success(AllAdmins(employees))
  {
    forall k | 0 <= k < |employees|
      ensures DecodeEmployee(EncodeEmployee(employees[k])) == Success(AllAdmins(employees)[k])
    {
      EmployeeRowRoundTrip(employees[k]);
    }
    TableRoundTrip(EmployeeHeader, employees, AllAdmins(employees), EncodeEmployee, DecodeEmployee);
  }

  // ------------------------------------------------------------- equipment

  /**
   * The borrower cell: the id when there is one; for an absent borrower,
   * whatever text the `csv` module writes for Python's None.
   */
  function BorrowerCell(borrowerId: Option<string>, noneText: string): (cell: string)
    ensures borrowerId.Some? ==> cell == borrowerId.value
    ensures borrowerId.None? ==> cell == noneText
  {
    match borrowerId
    case Some(id) => id
    case None => noneText
  }

  /** The reader's borrower decoding: exactly "None" is absent, any other text is that id. */
  function DecodeBorrower(cell: string): (b: Option<string>)
    ensures b == None <==> cell == "None"
    ensures b.Some? ==> b.value == cell
  {
    if cell != "None" then Some(cell) else None
  }

  /** A borrower survives the store exactly when it is an id other than "None", or absent written as "None". */
  lemma BorrowerRoundTrip(borrowerId: Option<string>, noneText: string)
    ensures DecodeBorrower(BorrowerCell(borrowerId, noneText)) == borrowerId
            <==> (borrowerId == None && noneText == "None") || (borrowerId.Some? && borrowerId.value != "None")
  {
  }

  /** One equipment row, columns in header order. */
  function EncodeEquipment(e: Equipment, noneText: string): (row: Row)
    ensures |row| == |EquipmentHeader|
  {
    [e.equipId, e.name, BorrowerCell(e.borrowerId, noneText), Join(e.skillRequirementsIds), Join(e.queue)]
  }

  /** One equipment record from a row. */
  function DecodeEquipment(row: Row): (r: Result<Equipment, RowError>)
    ensures r.Success? <==> |row| == 5
  {
    if |row| != 5 then Failure(WrongFieldCount)
    else Success(Equipment(row[0], row[1], DecodeBorrower(row[2]), SplitList(row[3]), SplitList(row[4])))
  }

  /** An equipment row reads back unchanged when its lists are id lists and its borrower cell is faithful. */
  /** An item as the store gives it back: everything kept, the borrower as its cell decodes. */
  function StoredEquipment(e: Equipment, noneText: string): (s: Equipment)
    ensures s.(borrowerId := e.borrowerId) == e
    ensures s.borrowerId == DecodeBorrower(BorrowerCell(e.borrowerId, noneText))
  {
    e.(borrowerId := DecodeBorrower(BorrowerCell(e.borrowerId, noneText)))
  }

  /**
   * An equipment row reads back with the same id, name, requirements and
   * queue, in order, whatever text stands for an absent borrower; the
   * borrower is what its cell decodes to. With absence written as "None"
   * and no borrower id "None", the item comes back unchanged.
   */
  lemma EquipmentRowRoundTrip(e: Equipment, noneText: string)
    requires IsIdList(e.skillRequirementsIds) && IsIdList(e.queue)
    ensures DecodeEquipment(EncodeEquipment(e, noneText)) == Success(StoredEquipment(e, noneText))
    ensures noneText == "None" && e.borrowerId != Some("None") ==>
              DecodeEquipment(EncodeEquipment(e, noneText)) == Success(e)
  {
    ListFieldRoundTrip(e.skillRequirementsIds);
    ListFieldRoundTrip(e.queue);
  }

  /**
   * When absence is written as the empty cell, an item without a borrower
   * reads back as borrowed by the id "".
   */
  lemma EquipmentEmptyNoneCell(e: Equipment)
    requires IsIdList(e.skillRequirementsIds) && IsIdList(e.queue)
    requires e.borrowerId == None
    ensures DecodeEquipment(EncodeEquipment(e, "")) == Success(e.(borrowerId := Some("")))
  {
    ListFieldRoundTrip(e.skillRequirementsIds);
    ListFieldRoundTrip(e.queue);
  }

  /** write_equipment_to_csv without the file. */
  method WriteEquipment(equipment: seq<Equipment>, noneText: string) returns (rows: seq<Row>)
    ensures rows == EncodeTable(EquipmentHeader, equipment, e => EncodeEquipment(e, noneText))
  {
    rows := WriteTable(EquipmentHeader, equipment, e => EncodeEquipment(e, noneText));
  }

  /** read_equipment_from_csv without the file. */
  method ReadEquipment(rows: seq<Row>) returns (r: Result<seq<Equipment>, TableError>)
    ensures r == DecodeTable(rows, DecodeEquipment)
  {
    r := ReadTable(rows, DecodeEquipment);
  }

  /** Every item as the store gives it back. */
  function AsStored(equipment: seq<Equipment>, noneText: string): (r: seq<Equipment>)
    ensures |r| == |equipment|
    ensures forall k :: 0 <= k < |r| ==> r[k] == StoredEquipment(equipment[k], noneText)
  {
    seq(|equipment|, k requires 0 <= k < |equipment| => StoredEquipment(equipment[k], noneText))
  }

  /**
   * Writing then reading the equipment gives every item back, in order, as
   * the store keeps it; with absence written as "None" and no borrower id
   * "None", exactly the items written.
   */
  lemma EquipmentRoundTrip(equipment: seq<Equipment>, noneText: string)
    requires forall k :: 0 <= k < |equipment| ==>
               IsIdList(equipment[k].skillRequirementsIds) && IsIdList(equipment[k].queue)
    ensures DecodeTable(EncodeTable(EquipmentHeader, equipment, e => EncodeEquipment(e, noneText)), DecodeEquipment)
            == Success(AsStored(equipment, noneText))
    ensures noneText == "None" && (forall k :: 0 <= k < |equipment| ==> equipment[k].borrowerId != Some("None")) ==>
              DecodeTable(EncodeTable(EquipmentHeader, equipment, e => EncodeEquipment(e, noneText)), DecodeEquipment)
              == Success(equipment)
  {
    var encode := e => EncodeEquipment(e, noneText);
    forall k | 0 <= k < |equipment|
      ensures DecodeEquipment(encode(equipment[k])) == Success(AsStored(equipment, noneText)[k])
    {
      EquipmentRowRoundTrip(equipment[k], noneText);
    }
    TableRoundTrip(EquipmentHeader, equipment, AsStored(equipment, noneText), encode, DecodeEquipment);
    if noneText == "None" && (forall k :: 0 <= k < |equipment| ==> equipment[k].borrowerId != Some("None")) {
      assert AsStored(equipment, noneText) == equipment;
    }
  }

  // ---------------------------------------------------------------- skills

  function EncodeSkill(s: Skill): (row: Row)
    ensures |row| == |SkillHeader|
  {
    [s.name, s.skillId]
  }

  function DecodeSkill(row: Row): (r: Result<Skill, RowError>)
    ensures r.Success? <==> |row| == 2
  {
    if |row| != 2 then Failure(WrongFieldCount) else Success(Skill(row[0], row[1]))
  }

  /** write_skills_to_csv without the file. */
  method WriteSkills(skills: seq<Skill>) returns (rows: seq<Row>)
    ensures rows == EncodeTable(SkillHeader, skills, EncodeSkill)
  {
    rows := WriteTable(SkillHeader, skills, EncodeSkill);
  }

  /** read_skills_from_csv without the file. */
  method ReadSkills(rows: seq<Row>) returns (r: Result<seq<Skill>, TableError>)
    ensures r == DecodeTable(rows, DecodeSkill)
  {
    r := ReadTable(rows, DecodeSkill);
  }

  /** Skills come back unchanged and in order, whatever their text. */
  lemma SkillsRoundTrip(skills: seq<Skill>)
    ensures DecodeTable(EncodeTable(SkillHeader, skills, EncodeSkill), DecodeSkill) == Success(skills)
  {
    TableRoundTrip(SkillHeader, skills, skills, EncodeSkill, DecodeSkill);
  }
}
