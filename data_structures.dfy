/**
 * The records of the equipment tracker (dataStructures.py): employees,
 * equipment, skills, audit-log entries and their event codes, and the
 * skill-gap check that tells which required skills an employee lacks.
 *
 * Identifiers are strings: the annotations in the Python file say `int`;
 * callers pass text ids ("0", "1", ...), except one unit-test fixture that
 * builds a skill with the integer id 0.
 */
module DataStructures {
  import opened Wrappers

  /**
   * An employee, with the eight fields its callers use
   * (the constructor in the Python file lists only six of them).
   */
  datatype Employee = Employee(
    name: string,
    passwordHash: string,
    empId: string,
    contactInfo: string,
    borrowedEquipIds: seq<string>,
    skillIds: seq<string>,
    numLostEquips: int,
    isAdmin: bool)

  /**
   * A piece of equipment: its id, display name, the id of the employee who
   * holds it (absent when nobody does), the ids of the skills it requires and
   * the queue of employee ids waiting for it.
   */
  datatype Equipment = Equipment(
    equipId: string,
    name: string,
    borrowerId: Option<string>,
    skillRequirementsIds: seq<string>,
    queue: seq<string>)
  {
    /**
     * getMissingSkills: walks the required ids in order and collects those
     * the employee does not hold. Neither record is changed.
     */
    method GetMissingSkills(emp: Employee) returns (missing: seq<string>)
      ensures missing == MissingSkills(skillRequirementsIds, emp.skillIds)
      ensures forall s :: s in missing <==> s in skillRequirementsIds && s !in emp.skillIds
    {
      missing := [];
      for i := 0 to |skillRequirementsIds|
        invariant missing == MissingSkills(skillRequirementsIds[..i], emp.skillIds)
      {
        var skillId := skillRequirementsIds[i];
        assert skillRequirementsIds[..i + 1][..i] == skillRequirementsIds[..i];
        if skillId !in emp.skillIds {
          missing := missing + [skillId];
        }
      }
      assert skillRequirementsIds[..|skillRequirementsIds|] == skillRequirementsIds;
    }
  }

  /** A skill: display name and id. */
  datatype Skill = Skill(name: string, skillId: string)

  /** The three audit events. */
  datatype LogCode = LOST | CHECKOUT | CHECKIN

  /** An audit-log entry; the date is an opaque timestamp. */
  datatype Log = Log(date: int, logCode: int, empId: string, equipId: string, notes: seq<string>)

  /** The value the enum assigns to each event. */
  function CodeValue(c: LogCode): (v: nat)
    ensures v < 3
  {
    match c
    case LOST => 0
    case CHECKOUT => 1
    case CHECKIN => 2
  }

  /** Enum lookup by value (`LOG_CODES(v)`); absent for a value no member has. */
  function CodeOfValue(v: int): (c: Option<LogCode>)
    ensures c.Some? <==> 0 <= v < 3
  {
    if v == 0 then Some(LOST)
    else if v == 1 then Some(CHECKOUT)
    else if v == 2 then Some(CHECKIN)
    else None
  }

  /** Distinct events have distinct values, and lookup by value inverts the assignment. */
  lemma CodeValuesDistinct(a: LogCode, b: LogCode)
    ensures CodeValue(a) == CodeValue(b) <==> a == b
    ensures CodeOfValue(CodeValue(a)) == Some(a)
  {
  }

  /**
   * The skill gap as a filter: the required ids the employee does not hold,
   * in requirement order, duplicates kept. Defined over prefixes so that it
   * follows the Python loop one step at a time.
   */
  function MissingSkills(required: seq<string>, held: seq<string>): (missing: seq<string>)
    ensures |missing| <= |required|
    ensures forall s :: s in missing <==> s in required && s !in held
  {
    if required == [] then []
    else
      var last := required[|required| - 1];
      var init := required[..|required| - 1];
      assert forall s :: s in required <==> s in init || s == last;
      if last in held then MissingSkills(init, held)
      else MissingSkills(init, held) + [last]
  }

  /** The filter distributes over concatenation: the order of the requirements is kept. */
  lemma {:induction false} MissingSkillsAppend(a: seq<string>, b: seq<string>, held: seq<string>)
    ensures MissingSkills(a + b, held) == MissingSkills(a, held) + MissingSkills(b, held)
    decreases |b|
  {
    if b == [] {
      assert a + b == a;
    } else {
      var init := b[..|b| - 1];
      assert (a + b)[..|a + b| - 1] == a + init;
      MissingSkillsAppend(a, init, held);
    }
  }

  /** Each id is reported as often as it is required when missing, and never when held. */
  lemma {:induction false} MissingSkillsCount(required: seq<string>, held: seq<string>, s: string)
    ensures multiset(MissingSkills(required, held))[s] == if s in held then 0 else multiset(required)[s]
    decreases |required|
  {
    if required != [] {
      var init := required[..|required| - 1];
      assert required == init + [required[|required| - 1]];
      MissingSkillsCount(init, held, s);
    }
  }

  /** No skill is missing exactly when the employee holds every required id. */
  lemma MissingSkillsEmptyIff(required: seq<string>, held: seq<string>)
    ensures MissingSkills(required, held) == [] <==> forall s :: s in required ==> s in held
  {
  }

  /** The two cases of the unit test: holder of skill "0" misses nothing; a non-holder misses ["0"]. */
  lemma MissingSkillsExample()
    ensures MissingSkills(["0"], ["0"]) == []
    ensures MissingSkills(["0"], []) == ["0"]
  {
    assert ["0"][..0] == [];
  }

  /**
   * The Employee constructor: omitted list arguments become fresh empty lists,
   * an omitted loss count is 0 and an omitted admin flag is false.
   */
  function NewEmployee(name: string, passwordHash: string, empId: string, contactInfo: string,
                       borrowedEquipIds: Option<seq<string>> := None, skillIds: Option<seq<string>> := None,
                       numLostEquips: int := 0, isAdmin: bool := false): (e: Employee)
    ensures e.name == name && e.passwordHash == passwordHash && e.empId == empId && e.contactInfo == contactInfo
    ensures e.borrowedEquipIds == borrowedEquipIds.GetOr([]) && e.skillIds == skillIds.GetOr([])
    ensures e.numLostEquips == numLostEquips && e.isAdmin == isAdmin
  {
    Employee(name, passwordHash, empId, contactInfo, borrowedEquipIds.GetOr([]), skillIds.GetOr([]),
             numLostEquips, isAdmin)
  }

  /**
   * The Equipment constructor: no borrower unless one is given, and omitted
   * requirement and queue lists become empty lists.
   */
  function NewEquipment(equipId: string, name: string, borrowerId: Option<string> := None,
                        skillRequirementsIds: Option<seq<string>> := None,
                        queue: Option<seq<string>> := None): (e: Equipment)
    ensures e.equipId == equipId && e.name == name && e.borrowerId == borrowerId
    ensures e.skillRequirementsIds == skillRequirementsIds.GetOr([]) && e.queue == queue.GetOr([])
  {
    Equipment(equipId, name, borrowerId, skillRequirementsIds.GetOr([]), queue.GetOr([]))
  }

  /** The fixtures of the unit test, built with the constructor defaults. */
  lemma ConstructorDefaults()
    ensures NewEmployee("test Name 2", "123", "1", "", skillIds := Some([])).borrowedEquipIds == []
    ensures NewEmployee("Test Name", "123", "0", "", skillIds := Some(["0"])).borrowedEquipIds == []
    ensures NewEmployee("Test Name", "123", "0", "", skillIds := Some(["0"])).skillIds == ["0"]
    ensures NewEmployee("Test Name", "123", "0", "", skillIds := Some(["0"])).numLostEquips == 0
    ensures !NewEmployee("Test Name", "123", "0", "", skillIds := Some(["0"])).isAdmin
    ensures NewEquipment("0", "Test Equipment", skillRequirementsIds := Some(["0"])).borrowerId == None
    ensures NewEquipment("0", "Test Equipment", skillRequirementsIds := Some(["0"])).queue == []
  {
  }
}
