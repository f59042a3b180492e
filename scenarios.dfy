/**
 * Client code replaying the repository's own test cases against the
 * contracts of the store: only what the specifications promise is used.
 */
module Scenarios {
  import opened Models
  import opened Queries
  import opened Schema
  import Messages

  /** A three-row table holds exactly its three records. */
  lemma RecordsOfThree(k1: int, k2: int, k3: int, a: Employee, b: Employee, c: Employee)
    requires k1 != k2 && k2 != k3 && k1 != k3
    ensures Records(map[k1 := a, k2 := b, k3 := c]) == {a, b, c}
  {
    var m := map[k1 := a, k2 := b, k3 := c];
    assert m[k1] == a && m[k2] == b && m[k3] == c;
  }

  /** Three distinct rows make a result of size three. */
  lemma CardinalityOfThree<V>(a: V, b: V, c: V)
    requires a != b && b != c && a != c
    ensures |{a, b, c}| == 3
  {
  }

  const Alice := Employee(101, "Alice", "2004-01-05", None, 1)
  const Bob := Employee(102, "Bob", "2022-02-10", None, 1)
  const Charlie := Employee(103, "Charlie", "2003-03-15", None, 1)
  const Seeded := map[101 := Alice, 102 := Bob, 103 := Charlie]

  /** The filter `filteredEmployees(organizationId: 1, joiningDateAfter: "2003-01-01", joiningDateBefore: "2022-02-28")`. */
  const TestFilters := FiltersFor(Some(1), Some("2003-01-01"), Some("2022-02-28"))

  /** Each seeded employee joined inside the test's inclusive bounds. */
  lemma SeededRowMatches(e: Employee)
    requires e == Alice || e == Bob || e == Charlie
    ensures Matches(e, TestFilters)
  {
  }

  /** The filter of the test keeps all three seeded employees. */
  lemma SeededFilterKeepsAllThree()
    ensures Select(Seeded, TestFilters) == {Alice, Bob, Charlie}
  {
    RecordsOfThree(101, 102, 103, Alice, Bob, Charlie);
    forall k | k in Seeded
      ensures Matches(Seeded[k], TestFilters)
    {
      SeededRowMatches(Seeded[k]);
    }
    SelectEveryMatchingRow(Seeded, TestFilters);
  }

  /** Three employees joining inside inclusive bounds are all returned (djangostrawberry/organization/tests.py, test_filtered_employees). */
  method FilteredEmployeesScenario() {
    var store := new Store();
    var org := store.CreateOrganization(OrganizationInput(1, "New Org", Some("2000-01-01"), Some(1)));
    var alice := store.CreateEmployee(EmployeeInput("Alice", 101, "2004-01-05", None, 1));
    var bob := store.CreateEmployee(EmployeeInput("Bob", 102, "2022-02-10", None, 1));
    var charlie := store.CreateEmployee(EmployeeInput("Charlie", 103, "2003-03-15", None, 1));
    assert store.employees == Seeded;
    var found := store.FilteredEmployees(Some(1), Some("2003-01-01"), Some("2022-02-28"));
    SeededFilterKeepsAllThree();
    assert found == {Alice, Bob, Charlie};
    assert |found| == 3 by { CardinalityOfThree(Alice, Bob, Charlie); }
  }

  /** Updating only the name changes only the name (djangostrawberry/organization/tests.py, test_update_employee). */
  method UpdateEmployeeScenario() {
    var store := new Store();
    var org := store.CreateOrganization(OrganizationInput(1, "New Org", Some("2022-01-01"), Some(1)));
    var john := store.CreateEmployee(EmployeeInput("John Doe", 123, "2022-01-01", None, 1));
    var jane := store.UpdateEmployee(UpdateEmployeeInput(123, Some("Jane Doe"), None, None, None));
    assert jane == Success(Employee(123, "Jane Doe", "2022-01-01", None, 1));
  }

  /** The id of the delete test renders as the text "123". */
  lemma RendersAs123()
    ensures Messages.Decimal(123) == "123"
  {
  }

  /** Deleting confirms, a later lookup fails, a second delete is not found (djangostrawberry/organization/tests.py, test_delete_employee). */
  method DeleteEmployeeScenario() {
    var store := new Store();
    var org := store.CreateOrganization(OrganizationInput(1, "New Org", Some("2022-01-01"), Some(1)));
    var john := store.CreateEmployee(EmployeeInput("John Doe", 123, "2022-01-01", None, 1));
    var deleted := store.DeleteEmployee(123);
    RendersAs123();
    assert deleted == Success(Messages.EmployeePrefix + "123" + Messages.DeletedSuffix);
    assert GetEmployeeById(store.employees, 123).Failure?;
    var again := store.DeleteEmployee(123);
    assert again == Failure(EmployeeNotFound(123));
    assert Messages.Message(again.error) == Some(Messages.EmployeePrefix + "123" + Messages.NotFoundSuffix);
  }

  /** The organization is found by its ORD_ID (djangostrawberry/organization/tests.py, test_get_organization_by_id). */
  method GetOrganizationScenario() {
    var store := new Store();
    var org := store.CreateOrganization(OrganizationInput(1, "New Org", Some("2022-01-01"), Some(1)));
    assert GetOrganizationById(store.organizations, 1) == org;
    assert org.Success?;
  }
}
