/**
 * The read-only side of the schema: the lookups `get_organization_by_id`,
 * `get_employee_by_id` and `OrganizationType.employees` as functions over the
 * tables, and the meaning of the filter dictionary that `filtered_employees`
 * hands to the ORM.
 */
module Queries {
  import opened Models
  import opened Dates

  /** `Employee.objects.get(employee_id=...)`: a primary-key lookup. */
  function GetEmployeeById(employees: map<int, Employee>, employeeId: int): (r: Result<Employee>)
    ensures r.Success? <==> employeeId in employees
    ensures r.Success? ==> r.value == employees[employeeId]
    ensures r.Failure? ==> r.error == EmployeeDoesNotExist
  {
    if employeeId in employees then Success(employees[employeeId]) else Failure(EmployeeDoesNotExist)
  }

  /** The keys of the organizations whose ORD_ID column holds `ordId`. */
  function WithOrdId(organizations: map<int, Organization>, ordId: int): set<int> {
    set k | k in organizations && organizations[k].ordId == Some(ordId)
  }

  lemma SingletonHasOneElement(s: set<int>)
    requires |s| == 1
    ensures exists x :: s == {x}
  {
    if forall y :: y !in s {
      assert false;
    }
    var x :| x in s;
    assert |s - {x}| == 0;
    assert s - {x} == {};
  }

  /**
   * `Organization.objects.get(ORD_ID=id)`: the lookup is by the external
   * reference code, not by the primary key, and succeeds only when exactly one
   * row carries it.
   */
  function GetOrganizationById(organizations: map<int, Organization>, ordId: int): (r: Result<Organization>)
    ensures r.Success? <==> |WithOrdId(organizations, ordId)| == 1
    ensures r.Success? ==> r.value in organizations.Values && r.value.ordId == Some(ordId)
    ensures r.Failure? ==>
              r.error == if WithOrdId(organizations, ordId) == {} then OrganizationDoesNotExist
                         else MultipleOrganizationsReturned
  {
    var keys := WithOrdId(organizations, ordId);
    if |keys| == 0 then Failure(OrganizationDoesNotExist)
    else if |keys| > 1 then Failure(MultipleOrganizationsReturned)
    else
      SingletonHasOneElement(keys);
      var k :| k in keys;
      Success(organizations[k])
  }

  /** The records the Employee table holds, one per row. */
  function Records(employees: map<int, Employee>): set<Employee> {
    set k | k in employees :: employees[k]
  }

  /** `OrganizationType.employees`: the employees whose foreign key is `organizationId`. */
  function EmployeesOf(employees: map<int, Employee>, organizationId: int): (r: set<Employee>)
    ensures forall e :: e in r <==> e in Records(employees) && e.organizationId == organizationId
  {
    set k | k in employees && employees[k].organizationId == organizationId :: employees[k]
  }

  /**
   * In a consistent database a found employee carries the requested id, and
   * its organization is stored, so the `organization` field of the result
   * resolves.
   */
  lemma FoundEmployeeResolves(organizations: map<int, Organization>, employees: map<int, Employee>, employeeId: int)
    requires Consistent(organizations, employees)
    ensures GetEmployeeById(employees, employeeId).Success? ==>
              && GetEmployeeById(employees, employeeId).value.employeeId == employeeId
              && GetEmployeeById(employees, employeeId).value.organizationId in organizations
  {
  }

  /**
   * In a consistent database the `employees` lists of the organizations
   * partition the Employee table: every employee is listed under its own,
   * stored, organization, and no employee is listed under two.
   */
  lemma EmployeesPartition(organizations: map<int, Organization>, employees: map<int, Employee>)
    requires Consistent(organizations, employees)
    ensures forall k :: k in employees ==>
              && employees[k].organizationId in organizations
              && employees[k] in EmployeesOf(employees, employees[k].organizationId)
    ensures forall a, b :: a != b ==> EmployeesOf(employees, a) !! EmployeesOf(employees, b)
  {
  }

  /**
   * The dictionary `filtered_employees` passes to `Employee.objects.filter`:
   * each field is present (Some) exactly when its key was inserted.
   */
  datatype Filters = Filters(
    organizationId: Option<int>,      // "organization_id"
    joiningDateGte: Option<Date>,     // "joining_date__gte"
    joiningDateLte: Option<Date>)     // "joining_date__lte"

  const NoFilters := Filters(None, None, None)

  /** The ORM's reading of the dictionary: every present entry must hold. */
  predicate Matches(e: Employee, f: Filters) {
    && (f.organizationId.Some? ==> e.organizationId == f.organizationId.value)
    && (f.joiningDateGte.Some? ==> OnOrBefore(f.joiningDateGte.value, e.joiningDate))
    && (f.joiningDateLte.Some? ==> OnOrBefore(e.joiningDate, f.joiningDateLte.value))
  }

  /** `Employee.objects.filter(**filters)`, with no order promised. */
  function Select(employees: map<int, Employee>, f: Filters): set<Employee> {
    set k | k in employees && Matches(employees[k], f) :: employees[k]
  }

  /** The dictionary the resolver builds: one entry per truthy argument. */
  function FiltersFor(organizationId: Option<int>, after: Option<Date>, before: Option<Date>): Filters
  {
    Filters(
      if TruthyInt(organizationId) then organizationId else None,
      if TruthyText(after) then after else None,
      if TruthyText(before) then before else None)
  }

  /** The keys of the rows that satisfy the dictionary. */
  function MatchingKeys(employees: map<int, Employee>, f: Filters): (keys: set<int>)
    ensures keys <= employees.Keys
  {
    set k | k in employees && Matches(employees[k], f)
  }

  /** Rows stored under their own keys are distinct records, one per key. */
  lemma {:induction false} RowsOfKeys(employees: map<int, Employee>, keys: set<int>)
    requires keys <= employees.Keys
    requires forall k :: k in employees ==> employees[k].employeeId == k
    ensures |set k | k in keys :: employees[k]| == |keys|
    decreases keys
  {
    if keys != {} {
      assert exists j :: j in keys by {
        if forall j :: j !in keys {
          assert false;
        }
      }
      var k :| k in keys;
      RowsOfKeys(employees, keys - {k});
      assert (set j | j in keys :: employees[j]) == (set j | j in keys - {k} :: employees[j]) + {employees[k]};
      assert employees[k] !in (set j | j in keys - {k} :: employees[j]);
    }
  }

  /**
   * In a consistent database the result holds one record per matching row:
   * every record returned is the row stored under its own id, the result is
   * the image of the matching keys, and it has as many records as there are
   * matching rows.
   */
  lemma SelectOneRecordPerRow(organizations: map<int, Organization>, employees: map<int, Employee>, f: Filters)
    requires Consistent(organizations, employees)
    ensures forall e :: e in Select(employees, f) ==>
              e.employeeId in employees && employees[e.employeeId] == e && Matches(e, f)
    ensures |Select(employees, f)| == |MatchingKeys(employees, f)|
  {
    assert Select(employees, f) == set k | k in MatchingKeys(employees, f) :: employees[k];
    RowsOfKeys(employees, MatchingKeys(employees, f));
  }

  /** When every row satisfies the dictionary, the whole table is returned. */
  lemma SelectEveryMatchingRow(employees: map<int, Employee>, f: Filters)
    requires forall k :: k in employees ==> Matches(employees[k], f)
    ensures Select(employees, f) == Records(employees)
  {
  }

  /** With every argument absent or falsy the dictionary is empty and every employee is returned. */
  lemma NoArgumentsSelectsEveryone(employees: map<int, Employee>, organizationId: Option<int>,
                                   after: Option<Date>, before: Option<Date>)
    requires !TruthyInt(organizationId) && !TruthyText(after) && !TruthyText(before)
    ensures Select(employees, FiltersFor(organizationId, after, before)) == Records(employees)
  {
  }

  /** The criteria are conjunctive: the result is the intersection of the single-criterion results. */
  lemma CriteriaIntersect(employees: map<int, Employee>, organizationId: Option<int>,
                          after: Option<Date>, before: Option<Date>)
    ensures Select(employees, FiltersFor(organizationId, after, before))
         == Select(employees, FiltersFor(organizationId, None, None))
          * Select(employees, FiltersFor(None, after, None))
          * Select(employees, FiltersFor(None, None, before))
  {
  }

  /** A lower bound past the upper bound selects nobody. */
  lemma CrossedBoundsSelectNobody(employees: map<int, Employee>, organizationId: Option<int>,
                                  after: Option<Date>, before: Option<Date>)
    requires TruthyText(after) && TruthyText(before) && !OnOrBefore(after.value, before.value)
    ensures Select(employees, FiltersFor(organizationId, after, before)) == {}
  {
    forall e | e in Select(employees, FiltersFor(organizationId, after, before))
      ensures false
    {
      OnOrBeforeTransitive(after.value, e.joiningDate, before.value);
    }
  }

  /** Both bounds are inclusive: equal bounds select exactly the employees who joined that day. */
  lemma EqualBoundsSelectThatDay(employees: map<int, Employee>, day: Option<Date>)
    requires TruthyText(day)
    ensures forall e :: e in Select(employees, FiltersFor(None, day, day)) <==>
                        e in Records(employees) && e.joiningDate == day.value
  {
    forall e | e in Records(employees)
      ensures Matches(e, FiltersFor(None, day, day)) <==> e.joiningDate == day.value
    {
      OnOrBeforeReflexive(day.value);
      if Matches(e, FiltersFor(None, day, day)) {
        OnOrBeforeAntisymmetric(e.joiningDate, day.value);
      }
    }
  }

  /**
   * A truthy organization id alone selects what `OrganizationType.employees`
   * lists; the id 0 selects everyone instead, being falsy.
   */
  lemma OrganizationFilterListsItsEmployees(employees: map<int, Employee>, organizationId: int)
    ensures organizationId != 0 ==>
              Select(employees, FiltersFor(Some(organizationId), None, None)) == EmployeesOf(employees, organizationId)
    ensures organizationId == 0 ==>
              Select(employees, FiltersFor(Some(organizationId), None, None)) == Records(employees)
  {
  }
}
