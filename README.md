# Organization / Employee resolvers: a Dafny model

This project models the resolver layer of a small GraphQL API for
organizations and employees, found in `djangostrawberry/organization/schema.py`.
The database is modelled as a `Store` object that holds the two tables as maps:

- the Organization table maps a primary key to a record with a name, an
  optional establish date and an optional `ORD_ID` reference code;
- the Employee table maps `employee_id` to a record with a name, a joining date,
  an optional releiving date and the key of its organization.

The record shapes follow `djangostrawberry/organization/models.py`. `Store.Valid`
states what the database guarantees: every row is stored under its own key, and
every employee's foreign key names an existing organization. Every mutation
preserves it.

The resolvers are modelled as follows:

- `filtered_employees` builds a filter dictionary from its truthy arguments and
  returns every employee that satisfies all of its entries.
- `create_employee` and `create_organization` insert one row.
- `update_employee` overwrites the truthy fields of a loaded row and saves it once.
- `delete_employee` removes one row.
- The lookups (`get_employee_by_id`, `get_organization_by_id`,
  `OrganizationType.employees`) are functions over the maps.

Each resolver either returns a value or raises an error, modelled as
`Result = Success | Failure(Error)`.

Dates are the ISO text `YYYY-MM-DD`. For text of that shape, lexicographic order
is calendar order. Module `Dates` proves that this comparison is a total order,
and the filter's inclusive bounds (`__gte`, `__lte`) are comparisons in that order.
Python truthiness is modelled exactly:

- `None` and `""` are false for text arguments;
- `None` and `0` are false for integer arguments.

Module `Scenarios` replays the repository's tests for filtering, updating,
deleting and organization lookup against the contracts alone.

Three behaviours of `schema.py` shape the model:

- None of the resolvers in `schema.py` checks a bearer token, so no
  authentication gate is modelled.
- `update_employee` applies a field when its value is truthy, not merely when
  it is non-null. An empty string or an organization id of 0 is ignored.
- `get_organization_by_id` looks organizations up by `ORD_ID`, not by primary
  key. It fails when no row or more than one row carries that code.

## Model

| member | source | states |
|---|---|---|
| `Dates.OnOrBeforeReflexive` | djangostrawberry/organization/schema.py:70-73 | every date lies within bounds equal to itself, so both bounds are inclusive |
| `Dates.OnOrBeforeAntisymmetric` | djangostrawberry/organization/schema.py:70-73 | two dates that are each on or before the other are the same date |
| `Dates.OnOrBeforeTransitive` | djangostrawberry/organization/schema.py:70-73 | the date order used by `__gte`/`__lte` is transitive |
| `Dates.OnOrBeforeTotal` | djangostrawberry/organization/schema.py:70-73 | any two dates are comparable, so the order is total |
| `Messages.DigitsRoundTrip` | djangostrawberry/organization/schema.py:127 | reading back the decimal digits of a natural number yields that number |
| `Messages.DecimalRoundTrip` | djangostrawberry/organization/schema.py:127 | Python's decimal rendering of an int, with a sign for negatives, reads back to the same int |
| `Messages.EmployeeMessageNamesTheEmployee` | djangostrawberry/organization/schema.py:127-129 | two messages with the same suffix are equal exactly when their ids are equal |
| `Messages.Message` | djangostrawberry/organization/schema.py:119-120 | exactly the not-found error of the employee mutations carries a text of its own; that text opens with "Employee with ID ", ends with " not found.", and the id reads back from the decimal text between them |
| `Messages.MessageIdentifiesError` | djangostrawberry/organization/schema.py:128-129 | two not-found errors carry the same text exactly when they name the same id |
| `Queries.FoundEmployeeResolves` | djangostrawberry/organization/schema.py:60-62 | in a consistent database, a found employee carries the requested id and its organization is stored, so its `organization` field resolves |
| `Queries.GetOrganizationById` | djangostrawberry/organization/schema.py:56-58 | succeeds exactly when one organization carries the `ORD_ID`, returning a stored row with that code; raises DoesNotExist for none and MultipleObjectsReturned for several |
| `Queries.EmployeesPartition` | djangostrawberry/organization/schema.py:13-15 | in a consistent database, every employee is listed under its own, stored, organization and under no other: the organizations' lists partition the table |
| `Queries.SelectOneRecordPerRow` | djangostrawberry/organization/schema.py:75 | in a consistent database, each record returned is the row stored under its own id, and there are as many records as matching rows |
| `Queries.SelectEveryMatchingRow` | djangostrawberry/organization/schema.py:75 | when every row satisfies the filter dictionary, the whole table is returned |
| `Queries.NoArgumentsSelectsEveryone` | djangostrawberry/organization/schema.py:67-75 | with every argument absent or falsy (None, 0, ""), every employee is returned |
| `Queries.CriteriaIntersect` | djangostrawberry/organization/schema.py:67-75 | the result is the intersection of the results of each criterion alone |
| `Queries.CrossedBoundsSelectNobody` | djangostrawberry/organization/schema.py:70-73 | a lower bound later than the upper bound selects no employee |
| `Queries.EqualBoundsSelectThatDay` | djangostrawberry/organization/schema.py:70-73 | equal bounds select exactly the employees who joined on that day |
| `Queries.OrganizationFilterListsItsEmployees` | djangostrawberry/organization/schema.py:68-69 | a non-zero organization id alone selects what `OrganizationType.employees` lists; id 0 selects everyone |
| `Schema.Updated` | djangostrawberry/organization/schema.py:108-116 | the key never changes; each field given a truthy value takes it; every other field keeps its stored value |
| `Schema.UpdateIdempotent` | djangostrawberry/organization/schema.py:108-117 | sending the same update twice stores the same row as sending it once |
| `Schema.UpdateNameOnly` | djangostrawberry/organization/schema.py:108-113 | an update that carries only a name changes the name and nothing else |
| `Schema.UpdateWithNothingKeepsRow` | djangostrawberry/organization/schema.py:108-117 | an update whose fields are all absent or falsy stores the row unchanged |
| `Schema.UpdateNeverClearsReleivingDate` | djangostrawberry/organization/schema.py:112-113 | a stored releiving date can be replaced but never cleared |
| `Schema.Store.FilteredEmployees` | djangostrawberry/organization/schema.py:64-75 | returns exactly the employees that match the organization id when it is truthy, joined on or after a truthy lower bound, and joined on or before a truthy upper bound; each is the row stored under its own id, one record per matching row |
| `Schema.Store.CreateEmployee` | djangostrawberry/organization/schema.py:83-93 | an unknown organization raises DoesNotExist and a taken `employee_id` raises an integrity error, both with nothing stored; otherwise exactly one row with the given fields is added under `employee_id`, other rows are unchanged, and a lookup finds it |
| `Schema.Store.CreateOrganization` | djangostrawberry/organization/schema.py:95-103 | inserts exactly one organization under the caller's id, or raises an integrity error with nothing stored when the id is taken; a fresh `ORD_ID` then resolves to the new row |
| `Schema.Store.UpdateEmployee` | djangostrawberry/organization/schema.py:104-120 | an unknown id raises "not found" and an unknown new organization raises DoesNotExist, both with both tables unchanged; otherwise only that row is replaced by `Updated` of it |
| `Schema.Store.DeleteEmployee` | djangostrawberry/organization/schema.py:122-129 | removes exactly that row and returns its confirmation, or raises "not found" with the table unchanged; afterwards a lookup of the id fails |
| `Scenarios.SeededRowMatches` | djangostrawberry/organization/tests.py:120-128 | each of the three seeded employees joined within the test's inclusive bounds |
| `Scenarios.SeededFilterKeepsAllThree` | djangostrawberry/organization/tests.py:119-133 | the test's filter returns all three seeded employees |
| `Scenarios.RendersAs123` | djangostrawberry/organization/tests.py:117 | the deleted id renders as the text the test expects |

## Left out

- JWT issue and verification (`djangostrawberry/organization/views.py`) are left out. They are HMAC-SHA256 signing and a wall-clock expiry, and the model has no cryptography and no clock.
- The `login` mutation and the bearer-token gate that the tests send are left out. They do not appear in `schema.py`.
- `Query.organizations` and `Query.employees` (schema.py:53-54) are left out. They are framework-generated lists of a whole table, and the model exposes both tables as the store's fields.
- The order of `filtered_employees` results is left out. The query has no `order_by`, so the model returns a set, and the test's check that Alice comes before Bob is not modelled.
- Parsing and validating date text is left out. The model assumes every date is zero-padded `YYYY-MM-DD` text and compares dates character by character. Two kinds of text fall outside it:
  - text Django's date parser accepts in another shape, such as `"2004-1-5"`, which Django compares as a calendar date but the model orders character by character (so a bound of `"2004-1-5"` excludes a joining date of `"2004-01-10"` in the model, not in Django);
  - text Django rejects as no date at all, which the model accepts and orders like any other text.
- The `max_length=200` bound on names is left out. It is database validation.
- The range of `IntegerField` is left out. Ids are unbounded integers.
- Database transactions and concurrent requests are left out. Each resolver call is one atomic step.
- The text of Django's own exceptions (DoesNotExist, MultipleObjectsReturned, IntegrityError) is left out. They are modelled as error values. Only the resolvers' own messages (the confirmation and the not-found text) are rendered as text.
- Cascade deletion of employees (models.py:16) is left out. No mutation deletes an organization, so it cannot happen.
- Releiving dates earlier than joining dates are accepted, as in the source. Nothing validates them.
- GraphQL type declarations, camelCase field mapping and schema construction (schema.py:131) are left out. They are framework glue.
