/**
 * The resolvers of the organization schema over a store holding the two
 * tables. The store is a class whose two map fields are the Organization and
 * Employee tables; the mutations change them in place, and `Valid` is the
 * consistency the database keeps (rows under their own keys, every employee's
 * organization present).
 */
module Schema {
  import opened Models
  import opened Queries
  import opened Messages

  /** The argument of `create_employee`. */
  datatype EmployeeInput = EmployeeInput(
    name: string,
    employeeId: int,
    joiningDate: Date,
    releivingDate: Option<Date>,
    organizationId: int)

  /** The argument of `create_organization`. */
  datatype OrganizationInput = OrganizationInput(
    id: int,
    name: string,
    establishDate: Option<Date>,
    ordId: Option<int>)

  /** The argument of `update_employee`: every field but the id may be left out. */
  datatype UpdateEmployeeInput = UpdateEmployeeInput(
    employeeId: int,
    name: Option<string>,
    joiningDate: Option<Date>,
    releivingDate: Option<Date>,
    organizationId: Option<int>)

  /**
   * The row `update_employee` saves: each field given a truthy value is
   * overwritten, every other field (and the key) keeps its stored value.
   */
  function Updated(e: Employee, input: UpdateEmployeeInput): (r: Employee)
    ensures r.employeeId == e.employeeId
    ensures TruthyText(input.name) ==> r.name == input.name.value
    ensures !TruthyText(input.name) ==> r.name == e.name
    ensures TruthyText(input.joiningDate) ==> r.joiningDate == input.joiningDate.value
    ensures !TruthyText(input.joiningDate) ==> r.joiningDate == e.joiningDate
    ensures TruthyText(input.releivingDate) ==> r.releivingDate == input.releivingDate
    ensures !TruthyText(input.releivingDate) ==> r.releivingDate == e.releivingDate
    ensures TruthyInt(input.organizationId) ==> r.organizationId == input.organizationId.value
    ensures !TruthyInt(input.organizationId) ==> r.organizationId == e.organizationId
  {
    var e := if TruthyText(input.name) then e.(name := input.name.value) else e;
    var e := if TruthyText(input.joiningDate) then e.(joiningDate := input.joiningDate.value) else e;
    var e := if TruthyText(input.releivingDate) then e.(releivingDate := input.releivingDate) else e;
    if TruthyInt(input.organizationId) then e.(organizationId := input.organizationId.value) else e
  }

  /** Sending the same update twice stores the same row as sending it once. */
  lemma UpdateIdempotent(e: Employee, input: UpdateEmployeeInput)
    ensures Updated(Updated(e, input), input) == Updated(e, input)
  {
  }

  /** An update that names only a new name changes the name and nothing else. */
  lemma UpdateNameOnly(e: Employee, input: UpdateEmployeeInput)
    requires TruthyText(input.name)
    requires !TruthyText(input.joiningDate) && !TruthyText(input.releivingDate) && !TruthyInt(input.organizationId)
    ensures Updated(e, input) == e.(name := input.name.value)
  {
  }

  /** An update whose fields are all absent or falsy stores the row unchanged. */
  lemma UpdateWithNothingKeepsRow(e: Employee, input: UpdateEmployeeInput)
    requires !TruthyText(input.name) && !TruthyText(input.joiningDate)
    requires !TruthyText(input.releivingDate) && !TruthyInt(input.organizationId)
    ensures Updated(e, input) == e
  {
  }

  /** A stored releiving date can be replaced but never cleared: null is falsy. */
  lemma UpdateNeverClearsReleivingDate(e: Employee, input: UpdateEmployeeInput)
    requires e.releivingDate.Some?
    ensures Updated(e, input).releivingDate.Some?
  {
  }

  class Store {
    /** The Organization table, keyed by primary key. */
    var organizations: map<int, Organization>
    /** The Employee table, keyed by employee_id. */
    var employees: map<int, Employee>

    ghost predicate Valid()
      reads this
    {
      Consistent(organizations, employees)
    }

    /** An empty database. */
    constructor ()
      ensures Valid() && organizations == map[] && employees == map[]
    {
      organizations := map[];
      employees := map[];
    }

    /**
     * `Query.filtered_employees`: builds the filter dictionary from the truthy
     * arguments, then returns every employee satisfying all its entries; the
     * date bounds are inclusive and no order is promised.
     */
    method FilteredEmployees(organizationId: Option<int>, joiningDateAfter: Option<Date>,
                             joiningDateBefore: Option<Date>) returns (result: set<Employee>)
      requires Valid()
      ensures result == Select(employees, FiltersFor(organizationId, joiningDateAfter, joiningDateBefore))
      ensures forall e :: e in result ==> e.employeeId in employees && employees[e.employeeId] == e
      ensures |result| == |MatchingKeys(employees, FiltersFor(organizationId, joiningDateAfter, joiningDateBefore))|
      ensures forall e :: e in result <==>
        && e in Records(employees)
        && (TruthyInt(organizationId) ==> e.organizationId == organizationId.value)
        && (TruthyText(joiningDateAfter) ==> Dates.OnOrBefore(joiningDateAfter.value, e.joiningDate))
        && (TruthyText(joiningDateBefore) ==> Dates.OnOrBefore(e.joiningDate, joiningDateBefore.value))
    {
      var filters := NoFilters;
      if TruthyInt(organizationId) {
        filters := filters.(organizationId := organizationId);
      }
      if TruthyText(joiningDateAfter) {
        filters := filters.(joiningDateGte := joiningDateAfter);
      }
      if TruthyText(joiningDateBefore) {
        filters := filters.(joiningDateLte := joiningDateBefore);
      }
      result := Select(employees, filters);
      SelectOneRecordPerRow(organizations, employees, filters);
    }

    /**
     * `Mutation.create_employee`: the organization must exist; then exactly
     * one row is inserted under the new employee_id.
     */
    method CreateEmployee(input: EmployeeInput) returns (r: Result<Employee>)
      requires Valid()
      modifies this
      ensures Valid()
      ensures organizations == old(organizations)
      ensures input.organizationId !in organizations ==>
                r == Failure(OrganizationDoesNotExist) && employees == old(employees)
      ensures input.organizationId in organizations && input.employeeId in old(employees) ==>
                r == Failure(DuplicateKey) && employees == old(employees)
      ensures input.organizationId in organizations && input.employeeId !in old(employees) ==>
                && r == Success(Employee(input.employeeId, input.name, input.joiningDate,
                                         input.releivingDate, input.organizationId))
                && employees == old(employees)[input.employeeId := r.value]
      ensures r.Success? ==> GetEmployeeById(employees, input.employeeId) == r
    {
      if input.organizationId !in organizations {
        return Failure(OrganizationDoesNotExist);
      }
      if input.employeeId in employees {
        return Failure(DuplicateKey);
      }
      var employee := Employee(input.employeeId, input.name, input.joiningDate,
                               input.releivingDate, input.organizationId);
      employees := employees[input.employeeId := employee];
      r := Success(employee);
    }

    /** `Mutation.create_organization`: a plain insert under the caller's primary key. */
    method CreateOrganization(input: OrganizationInput) returns (r: Result<Organization>)
      requires Valid()
      modifies this
      ensures Valid()
      ensures employees == old(employees)
      ensures input.id in old(organizations) ==>
                r == Failure(DuplicateKey) && organizations == old(organizations)
      ensures input.id !in old(organizations) ==>
                && r == Success(Organization(input.id, input.name, input.establishDate, input.ordId))
                && organizations == old(organizations)[input.id := r.value]
      ensures r.Success? && input.ordId.Some? && WithOrdId(old(organizations), input.ordId.value) == {} ==>
                GetOrganizationById(organizations, input.ordId.value) == r
    {
      if input.id in organizations {
        return Failure(DuplicateKey);
      }
      var organization := Organization(input.id, input.name, input.establishDate, input.ordId);
      organizations := organizations[input.id := organization];
      r := Success(organization);
      if input.ordId.Some? && WithOrdId(old(organizations), input.ordId.value) == {} {
        assert WithOrdId(organizations, input.ordId.value) == {input.id};
      }
    }

    /**
     * `Mutation.update_employee`: loads the row, overwrites the truthy fields
     * one by one, resolves a new organization if one is given, and saves only
     * at the end, so a failure leaves both tables as they were.
     */
    method UpdateEmployee(input: UpdateEmployeeInput) returns (r: Result<Employee>)
      requires Valid()
      modifies this
      ensures Valid()
      ensures organizations == old(organizations)
      ensures input.employeeId !in old(employees) ==>
                r == Failure(EmployeeNotFound(input.employeeId)) && employees == old(employees)
      ensures input.employeeId in old(employees) && TruthyInt(input.organizationId)
                && input.organizationId.value !in organizations ==>
                r == Failure(OrganizationDoesNotExist) && employees == old(employees)
      ensures r.Success? <==>
                && input.employeeId in old(employees)
                && (TruthyInt(input.organizationId) ==> input.organizationId.value in organizations)
      ensures r.Success? ==>
                && r.value == Updated(old(employees)[input.employeeId], input)
                && employees == old(employees)[input.employeeId := r.value]
    {
      if input.employeeId !in employees {
        return Failure(EmployeeNotFound(input.employeeId));
      }
      var employee := employees[input.employeeId];
      if TruthyText(input.name) {
        employee := employee.(name := input.name.value);
      }
      if TruthyText(input.joiningDate) {
        employee := employee.(joiningDate := input.joiningDate.value);
      }
      if TruthyText(input.releivingDate) {
        employee := employee.(releivingDate := input.releivingDate);
      }
      if TruthyInt(input.organizationId) {
        if input.organizationId.value !in organizations {
          return Failure(OrganizationDoesNotExist);
        }
        employee := employee.(organizationId := input.organizationId.value);
      }
      employees := employees[input.employeeId := employee];
      r := Success(employee);
    }

    /**
     * `Mutation.delete_employee`: removes exactly the named row and confirms
     * it, or reports the id as not found and changes nothing.
     */
    method DeleteEmployee(employeeId: int) returns (r: Result<string>)
      requires Valid()
      modifies this
      ensures Valid()
      ensures organizations == old(organizations)
      ensures employeeId in old(employees) ==>
                r == Success(DeletedMessage(employeeId)) && employees == old(employees) - {employeeId}
      ensures employeeId !in old(employees) ==>
                r == Failure(EmployeeNotFound(employeeId)) && employees == old(employees)
      ensures GetEmployeeById(employees, employeeId) == Failure(EmployeeDoesNotExist)
    {
      if employeeId !in employees {
        return Failure(EmployeeNotFound(employeeId));
      }
      employees := employees - {employeeId};
      r := Success(DeletedMessage(employeeId));
    }
  }
}
