# Jobly SQL helpers in Dafny

This project models the SQL helpers of the Jobly job board API (helpers/sql.js). It proves properties of the model.

- `sqlForPartialUpdate(dataToUpdate, jsToSql)` turns a partial-update payload into a `SET` list such as `"first_name"=$1, "age"=$2`. It also returns the values to bind to those placeholders. An empty payload is rejected with `BadRequestError("No data")`.
- `sqlMakeCompWhere(data)` builds the optional `WHERE` clause of the company listing from `name`, `minEmployees` and `maxEmployees`. A maximum without a minimum adds `OR num_employees IS NULL`.
- `sqlMakeJobWhere(data)` builds the optional `WHERE` clause of the job listing from `title`, `minSalary` and `hasEquity`.

`Job.update` (models/job.js) numbers the job id placeholder `values.length + 1` and binds `[...values, jobId]`. The model includes that call as an illustration of why the placeholder numbering matters.

Modules:

- `Wrappers`: `Option` and `Result`.
- `JsText`: the JavaScript side.
  - A payload value as `JsValue`.
  - Truthiness of an optional string, number or boolean (`None` is `undefined`/`null`).
  - Decimal rendering of `${n}` (`NatToString`, `IntToString`) with its inverses.
  - `Array.prototype.join` as `Join`.
- `Sql`: the three builders.
  - `SqlForPartialUpdate` is a function, as the source is a pure `map`/`join`.
  - The two filter builders are methods, since the source builds a `constraints` array by conditional `push` steps. Each is proved equal to a specification function (`CompanyConditions`, `JobConditions`) whose properties are lemmas.
- `SetClauseParse`: an independent reader of the `SET` list. It is used to state and prove that placeholder *i* binds `values[i-1]`.
- `JobUpdate`: the statement and parameter list `Job.update` builds from the `SET` clause.
- `SqlExamples`: the concrete cases of helpers/sql.test.js as lemmas.

The payload is a sequence of (field, value) pairs in `Object.keys` order, so `Object.values` is the second components in the same order. The column map is a `map<string, string>`.

The code throws `BadRequestError("No data")`; the model returns `BadRequest("No data")`.

## Model

| member | source | states |
|---|---|---|
| Sql.SqlForPartialUpdate | helpers/sql.js:7-20 | fails exactly when the payload has no fields, and then with `BadRequest("No data")`; otherwise `setCols` is non-empty and `values` has one entry per field, the field's value, in payload order |
| Sql.ColumnName | helpers/sql.js:13 | the column is the mapped name when the key is mapped to a non-empty name, and the key itself verbatim when the key is unmapped or mapped to `""` |
| Sql.Keys | helpers/sql.js:8 | `Object.keys(dataToUpdate)`: the field names of the payload, in payload order |
| Sql.Values | helpers/sql.js:18 | `Object.values(dataToUpdate)`: the field values of the payload, in the same order as the keys |
| Sql.Fragment | helpers/sql.js:13 | the template of one entry: `"`, the column, `"=$`, and the decimal placeholder number |
| Sql.Cols | helpers/sql.js:12-14 | `keys.map((colName, idx) => ...)`: entry `idx` is the fragment of that key's column with placeholder number `idx + 1` |
| SetClauseParse.PlaceholdersBindValues | helpers/sql.js:12-18 | for quote-free column names, the `SET` list reads back as one entry per field in payload order; entry p names that field's column with placeholder `$(p+1)`, and `values[(p+1)-1]` is that field's value |
| SetClauseParse.PlaceholdersDistinct | helpers/sql.js:12-14 | two different fields of one `SET` list get different placeholder numbers |
| SetClauseParse.SetColsReadBack | helpers/sql.js:12-17 | for a non-empty payload with quote-free column names, reading the `SET` list back gives exactly the (column, index+1) assignments |
| SetClauseParse.ParseSetColsOfJoin | helpers/sql.js:12-17 | any non-empty list of `"column"=$n` fragments with quote-free columns, joined by `", "`, reads back as that list (a round trip of join and read) |
| SetClauseParse.ParseFragmentOfFragment | helpers/sql.js:13 | a fragment `"column"=$n` with a quote-free column, at the end of the list or before a comma, reads back as (column, n) and leaves the rest of the text |
| SetClauseParse.ParseFragmentText | helpers/sql.js:13 | any text the reader accepts as one entry is that entry's fragment followed by the rest, with a quote-free column |
| SetClauseParse.ParseSetColsText | helpers/sql.js:12-17 | any text the reader accepts as a `SET` list is exactly the `", "`-join of the fragments of the entries it returns, so a list has one spelling |
| SetClauseParse.SetColsOnlySpelling | helpers/sql.js:12-17 | for quote-free column names, a text reads back as the payload's (column, index+1) assignments if and only if it is the builder's `setCols` |
| JsText.NatToString | helpers/sql.js:13 | `${n}` of a natural number is non-empty, all digits, and starts with `0` only for zero |
| JsText.ParseNatOfNatToString | helpers/sql.js:13 | reading the decimal text of n gives back n |
| JsText.NatToStringOfParseNat | helpers/sql.js:13 | canonical decimal text (no leading zero unless it is `0`) is the rendering of its own value, so the placeholder text is fixed by its number |
| JsText.IntToString | helpers/sql.js:35-39 | `${n}` of an integer is non-empty and ends with a digit |
| JsText.ParseIntOfIntToString | helpers/sql.js:35-39 | the text of an integer is an optionally negated run of digits that reads back as that integer |
| JsText.Join | helpers/sql.js:17 | `parts.join(sep)`, also used at lines 42 and 66: `""` for no parts, the single part for one, otherwise the first part, `sep`, and the join of the rest |
| JsText.TruthyString | helpers/sql.js:34 | `if (name)`, and `if (title)` at line 62: a string criterion is truthy when present and non-empty |
| JsText.TruthyNumber | helpers/sql.js:35-36 | `if (minEmployees)`, `if (maxEmployees)`, and `if (minSalary)` at line 63: a number criterion is truthy when present and non-zero |
| JsText.TruthyBool | helpers/sql.js:64 | `if (hasEquity)`: a boolean criterion is truthy when present and `true` |
| JsText.JoinEnds | helpers/sql.js:17 | a join of non-empty parts starts with the first part and ends with the last |
| Sql.WhereClause | helpers/sql.js:41-45 | the clause is `""` exactly when there are no constraints |
| Sql.WhereClauseEnds | helpers/sql.js:41-43 | a non-empty clause starts with `WHERE ` and ends with the last constraint |
| Sql.NameCondition | helpers/sql.js:34 | the name condition ends with the closing quote |
| Sql.MinEmployeesCondition | helpers/sql.js:35 | the minimum condition ends with a digit of the number |
| Sql.MaxEmployeesCondition | helpers/sql.js:36-39 | with the NULL allowance the condition ends with ` OR num_employees IS NULL`, without it with a digit of the number |
| Sql.CompanyConditions | helpers/sql.js:34-39 | the list the three conditional pushes build: the name, minimum and maximum conditions of the truthy criteria, in that order, the maximum carrying the NULL allowance when the minimum is falsy |
| Sql.CompanyConditionsOrder | helpers/sql.js:34-39 | one condition per truthy criterion; the name condition first, the minimum next, the maximum last, whatever the input order |
| Sql.SqlMakeCompWhere | helpers/sql.js:28-47 | the conditional pushes produce `WhereClause(CompanyConditions(data))`, which is `""` exactly when no criterion is truthy |
| Sql.CompanyNullAllowance | helpers/sql.js:36-39 | the clause ends with the `IS NULL` allowance exactly when `maxEmployees` is truthy and `minEmployees` is not |
| Sql.CompanyFalsyIsAbsent | helpers/sql.js:34-36 | a falsy name, minimum or maximum (`""`, `0`) gives the same clause as an omitted one |
| Sql.TitleCondition | helpers/sql.js:62 | the template `title ILIKE '%<title>%'` |
| Sql.MinSalaryCondition | helpers/sql.js:63 | the template `salary > <minSalary>` with the decimal text of the number |
| Sql.EquityCondition | helpers/sql.js:64 | the fixed condition `equity > 0` |
| Sql.JobConditions | helpers/sql.js:62-64 | the list the three conditional pushes build: the title, salary and equity conditions of the truthy criteria, in that order |
| Sql.JobConditionsOrder | helpers/sql.js:62-64 | one condition per truthy criterion; the title condition first, the salary condition next, `equity > 0` last |
| Sql.SqlMakeJobWhere | helpers/sql.js:56-70 | the conditional pushes produce `WhereClause(JobConditions(data))`, which is `""` exactly when no criterion is truthy |
| Sql.JobFalsyIsAbsent | helpers/sql.js:62-64 | a falsy title, minimum salary or equity flag (`""`, `0`, `false`) gives the same clause as an omitted one |
| JobUpdate.JobUpdateStatement | models/job.js:92-101 | fails exactly as the update builder does on an empty payload, with its error; otherwise the parameters are the payload's values in order followed by the job id, and the id placeholder is `$` and the decimal text of `values.length + 1` |
| JobUpdate.JobUpdateBindsParams | models/job.js:92-101 | with no column map, every field's placeholder in the `SET` list binds that field's value, each below the id placeholder, and the id placeholder `$(values.length+1)` binds the job id |
| SqlExamples.PartialUpdateExample | helpers/sql.test.js:19-25 | the four-field payload with its column map gives `"first_name"=$1, "last_name"=$2, "age"=$3, "location"=$4` and the four values in order |
| SqlExamples.CompanyNameExample | helpers/sql.test.js:31-36 | `{name: "test"}` gives `WHERE name ILIKE '%test%'` |
| SqlExamples.CompanyMinExample | helpers/sql.test.js:38-43 | `{minEmployees: 12}` gives `WHERE num_employees >= 12` |
| SqlExamples.CompanyMaxOnlyExample | helpers/sql.test.js:45-50 | `{maxEmployees: 12}` gives `WHERE num_employees <= 12 OR num_employees IS NULL` |
| SqlExamples.CompanyAllExample | helpers/sql.test.js:52-61 | all three criteria give the name, minimum and maximum conditions in that order, without the NULL allowance |
| SqlExamples.CompanyNoCriteriaExample | helpers/sql.js:28-45 | no criteria give `""` |
| SqlExamples.JobTitleExample | helpers/sql.test.js:66-69 | `{title: "test"}` gives `WHERE title ILIKE '%test%'` |
| SqlExamples.JobMinSalaryExample | helpers/sql.test.js:71-74 | `{minSalary: 200}` gives `WHERE salary > 200` |
| SqlExamples.JobEquityExample | helpers/sql.test.js:76-79 | `{hasEquity: true}` gives `WHERE equity > 0` |
| SqlExamples.JobAllExample | helpers/sql.test.js:81-88 | all three criteria give the title, salary and equity conditions in that order |
| SqlExamples.JobNoCriteriaExample | helpers/sql.js:56-68 | no criteria give `""` |

## Left out

- SetClauseParse.PlaceholdersBindValues: requires the column names to contain no `"`. The source does not escape a `"` in a key or a mapped name, and such a `SET` list cannot be read back unambiguously.
- SetClauseParse.PlaceholdersDistinct: the same requirement, for the same reason.
- SetClauseParse.SetColsReadBack: the same requirement, for the same reason.
- SetClauseParse.ParseSetColsOfJoin: the same requirement, for the same reason.
- SetClauseParse.ParseFragmentOfFragment: the same requirement, for the same reason.
- SetClauseParse.SetColsOnlySpelling: the same requirement, for the same reason.
- JobUpdate.JobUpdateBindsParams: requires the field names to contain no `"`, as above.
- Calls that JavaScript rejects with a `TypeError` cannot be expressed with the Dafny types: `sqlMakeCompWhere(null)` and `sqlMakeJobWhere(null)` (the `= {}` default covers only `undefined`), `Object.keys(null)` in `sqlForPartialUpdate`, and an undefined `jsToSql`. A call with no argument is `CompanyFilter(None, None, None)` or `JobFilter(None, None, None)`.
- The meaning of the produced SQL in the database is not modelled: `ILIKE` matching, NULL semantics, escaping and injection through interpolated values. The model covers only the produced strings. In particular, it does not capture that the unparenthesised `OR num_employees IS NULL` after a name condition is read by SQL as `(name AND max) OR NULL`.
- Numbers are modelled as integers only. JavaScript floating point (`12.5`, `NaN`, `Infinity`, exponent notation in `${n}`) is left out.
- Filter criteria of another JavaScript type than the one named (a numeric `name`, a string `minEmployees`) are left out. Each criterion is an optional value of its intended type.
- `jsToSql[colName]` lookups that reach the object's prototype chain (`constructor`, `toString`) and mapped values that are not strings are left out. The column map is a plain `map<string, string>`.
- The payload is given in `Object.keys` order. The JavaScript rule that integer-like keys come first is not modelled.
- Idempotence holds by construction: every builder is a function, or a method without state whose result equals a function of its input.
- The rest of models/job.js (the asynchronous `db.query` call and the NotFound check), routes/users.js, db.js and the database/HTTP tests are I/O and framework plumbing, and are not part of this model.
