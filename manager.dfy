/**
 * The manager (manager.py): the shared collections, the two policy limits,
 * the logged-in employee, and the login that looks an employee up by id and
 * password hash.
 */
module Management {
  import opened Wrappers
  import opened DataStructures

  /** The module-level debug switch; while it is on, login runs the lookup once more for its diagnostic line. */
  const Debug: bool := true

  /** An employee whose id and stored hash are the ones given. */
  predicate Matches(e: Employee, userId: string, pwdHash: string) {
    e.empId == userId && e.passwordHash == pwdHash
  }

  /** The position of the first employee, in list order, whose id and hash match. */
  function FindUser(employees: seq<Employee>, userId: string, pwdHash: string): (r: Option<nat>)
    ensures r.Some? ==> r.value < |employees| && Matches(employees[r.value], userId, pwdHash)
    ensures r.Some? ==> forall j :: 0 <= j < r.value ==> !Matches(employees[j], userId, pwdHash)
    ensures r.None? <==> forall j :: 0 <= j < |employees| ==> !Matches(employees[j], userId, pwdHash)
  {
    if employees == [] then None
    else if Matches(employees[0], userId, pwdHash) then Some(0)
    else
      match FindUser(employees[1..], userId, pwdHash)
      case None => None
      case Some(k) => Some(k + 1)
  }

  /** Who is logged in after a lookup: the first match, or whoever was before when nobody matches. */
  function UserAfterLookup(employees: seq<Employee>, current: Option<Employee>, userId: string, pwdHash: string): (u: Option<Employee>)
    ensures (forall j :: 0 <= j < |employees| ==> !Matches(employees[j], userId, pwdHash)) ==> u == current
    ensures (exists j :: 0 <= j < |employees| && Matches(employees[j], userId, pwdHash)) ==>
              u.Some? && u.value in employees && Matches(u.value, userId, pwdHash)
  {
    match FindUser(employees, userId, pwdHash)
    case Some(k) => Some(employees[k])
    case None => current
  }

  /** A second lookup with the same credentials changes nothing more. */
  lemma LookupIdempotent(employees: seq<Employee>, current: Option<Employee>, userId: string, pwdHash: string)
    ensures UserAfterLookup(employees, UserAfterLookup(employees, current, userId, pwdHash), userId, pwdHash)
            == UserAfterLookup(employees, current, userId, pwdHash)
  {
  }

  /** A successful lookup logs in an employee of the list who holds those credentials. */
  lemma LookupFindsMatch(employees: seq<Employee>, current: Option<Employee>, userId: string, pwdHash: string)
    requires exists j :: 0 <= j < |employees| && Matches(employees[j], userId, pwdHash)
    ensures UserAfterLookup(employees, current, userId, pwdHash).Some?
    ensures var u := UserAfterLookup(employees, current, userId, pwdHash).value;
            u in employees && Matches(u, userId, pwdHash)
  {
  }

  class Manager {
    var checkoutLimit: int
    var lostLimit: int
    var equipment: seq<Equipment>
    var employees: seq<Employee>
    var terminatedEmployees: seq<Employee>
    var skills: seq<Skill>
    var currentUser: Option<Employee>

    /** Omitted collections start empty, the limits default to 5 and 3, and nobody is logged in. */
    constructor(checkoutLimit: int := 5, lostLimit: int := 3,
                equipment: Option<seq<Equipment>> := None, employees: Option<seq<Employee>> := None,
                termEmployees: Option<seq<Employee>> := None, skills: Option<seq<Skill>> := None)
      ensures this.checkoutLimit == checkoutLimit && this.lostLimit == lostLimit
      ensures this.equipment == equipment.GetOr([]) && this.employees == employees.GetOr([])
      ensures this.terminatedEmployees == termEmployees.GetOr([]) && this.skills == skills.GetOr([])
      ensures currentUser == None
    {
      this.checkoutLimit := checkoutLimit;
      this.lostLimit := lostLimit;
      this.equipment := equipment.GetOr([]);
      this.employees := employees.GetOr([]);
      this.terminatedEmployees := termEmployees.GetOr([]);
      this.skills := skills.GetOr([]);
      currentUser := None;
    }

    /**
     * _set_current_user: scans the employees in order; the first one with
     * this id and hash becomes the current user. Only the current user may change.
     */
    method SetCurrentUser(userId: string, pwdHash: string) returns (found: bool)
      modifies this`currentUser
      ensures found <==> exists j :: 0 <= j < |employees| && Matches(employees[j], userId, pwdHash)
      ensures currentUser == UserAfterLookup(employees, old(currentUser), userId, pwdHash)
    {
      if |employees| == 0 {
        return false;
      }
      for i := 0 to |employees|
        invariant forall j :: 0 <= j < i ==> !Matches(employees[j], userId, pwdHash)
        invariant currentUser == old(currentUser)
      {
        if employees[i].empId == userId && employees[i].passwordHash == pwdHash {
          currentUser := Some(employees[i]);
          assert FindUser(employees, userId, pwdHash) == Some(i);
          return true;
        }
      }
      return false;
    }

    /**
     * login: empty id or password fails at once; otherwise the password text
     * itself is looked up as the hash. The result is always false.
     */
    method Login(userId: string, pwd: string) returns (ok: bool)
      modifies this`currentUser
      ensures !ok
      ensures |userId| == 0 || |pwd| == 0 ==> currentUser == old(currentUser)
      ensures |userId| > 0 && |pwd| > 0 ==>
                currentUser == UserAfterLookup(employees, old(currentUser), userId, pwd)
    {
      if |userId| == 0 || |pwd| == 0 {
        return false;
      }
      if Debug {
        var debugFound := SetCurrentUser(userId, pwd);
      }
      var found := SetCurrentUser(userId, pwd);
      LookupIdempotent(employees, old(currentUser), userId, pwd);
      return false;
    }
  }
}
