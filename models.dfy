/**
 * The two tables of the organization app and the values that flow through
 * its resolvers: the Organization and Employee records, the errors a
 * resolver can raise, and Python's truthiness test on optional arguments.
 */
module Models {

  datatype Option<+T> = None | Some(value: T)

  /** A resolver either returns a value or raises one of the errors below. */
  datatype Result<+T> = Success(value: T) | Failure(error: Error)

  datatype Error =
    /** Raised by update_employee and delete_employee when the id is unknown. */
    | EmployeeNotFound(employeeId: int)
    /** Django's Employee.DoesNotExist, raised uncaught by get_employee_by_id. */
    | EmployeeDoesNotExist
    /** Django's Organization.DoesNotExist, raised uncaught by every organization lookup. */
    | OrganizationDoesNotExist
    /** Django's MultipleObjectsReturned from a get() that matched more than one row. */
    | MultipleOrganizationsReturned
    /** The database's primary-key uniqueness violation on a forced INSERT. */
    | DuplicateKey

  /** A calendar date as the ISO text "YYYY-MM-DD" (see module Dates). */
  type Date = string

  /** A row of the Organization table; `id` is its primary key. */
  datatype Organization = Organization(
    id: int,
    name: string,
    establishDate: Option<Date>,
    ordId: Option<int>)

  /** A row of the Employee table; `employeeId` is its primary key. */
  datatype Employee = Employee(
    employeeId: int,
    name: string,
    joiningDate: Date,
    releivingDate: Option<Date>,
    organizationId: int)

  /** Python truthiness of an optional string argument: None and "" are false. */
  predicate TruthyText(s: Option<string>) {
    s.Some? && s.value != ""
  }

  /** Python truthiness of an optional integer argument: None and 0 are false. */
  predicate TruthyInt(n: Option<int>) {
    n.Some? && n.value != 0
  }

  /**
   * What the database guarantees of the two tables: each row is stored under
   * its own primary key, and every employee's foreign key names an existing
   * organization.
   */
  predicate Consistent(organizations: map<int, Organization>, employees: map<int, Employee>) {
    && (forall k :: k in organizations ==> organizations[k].id == k)
    && (forall k :: k in employees ==> employees[k].employeeId == k)
    && (forall k :: k in employees ==> employees[k].organizationId in organizations)
  }
}
