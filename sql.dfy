/** The SQL fragment builders of helpers/sql.js: a parameterised `SET`
    clause for partial updates, and the `WHERE` clauses of the company and
    job listings. */
module Sql {
  import opened Wrappers
  import opened JsText

  /** The error kind `BadRequestError` that the update builder throws. */
  datatype Error = BadRequest(message: string)

  /** An update payload: its fields and values in `Object.keys` order. */
  type Payload = seq<(string, JsValue)>

  /** What `sqlForPartialUpdate` returns: the `SET` list and the bind values. */
  datatype SetClause = SetClause(setCols: string, values: seq<JsValue>)

  function Keys(data: Payload): seq<string> {
    seq(|data|, i requires 0 <= i < |data| => data[i].0)
  }

  /** `Object.values(data)`. */
  function Values(data: Payload): seq<JsValue> {
    seq(|data|, i requires 0 <= i < |data| => data[i].1)
  }

  /** `jsToSql[key] || key`: the mapped column name unless it is missing or
      empty, in which case the field name itself. */
  function ColumnName(key: string, jsToSql: map<string, string>): (column: string)
    ensures key !in jsToSql ==> column == key
    ensures key in jsToSql && jsToSql[key] == "" ==> column == key
    ensures key in jsToSql && jsToSql[key] != "" ==> column == jsToSql[key]
  {
    if key in jsToSql && jsToSql[key] != "" then jsToSql[key] else key
  }

  /** One entry of the `SET` list: the quoted column, `=$` and the placeholder number. */
  function Fragment(column: string, index: nat): string {
    "\"" + column + "\"=$" + NatToString(index)
  }

  /** `keys.map((colName, idx) => ...)`: the entry of each key, numbered from 1. */
  function Cols(keys: seq<string>, jsToSql: map<string, string>): seq<string> {
    seq(|keys|, idx requires 0 <= idx < |keys| => Fragment(ColumnName(keys[idx], jsToSql), idx + 1))
  }

  /** `sqlForPartialUpdate(dataToUpdate, jsToSql)`. */
  function SqlForPartialUpdate(data: Payload, jsToSql: map<string, string>): (r: Result<SetClause, Error>)
    ensures r.Err? <==> |data| == 0
    ensures r.Err? ==> r.error == BadRequest("No data")
    ensures r.Ok? ==> r.value.setCols != ""
    ensures r.Ok? ==> |r.value.values| == |data|
    ensures r.Ok? ==> forall i :: 0 <= i < |data| ==> r.value.values[i] == data[i].1
  {
    var keys := Keys(data);
    if |keys| == 0 then Err(BadRequest("No data"))
    else
      var cols := Cols(keys, jsToSql);
      JoinEnds(cols, ", ");
      Ok(SetClause(Join(cols, ", "), Values(data)))
  }

  /** The column and the placeholder number of each entry of the `SET` list, in order. */
  function Assignments(data: Payload, jsToSql: map<string, string>): seq<(string, nat)> {
    seq(|data|, i requires 0 <= i < |data| => (ColumnName(data[i].0, jsToSql), i + 1))
  }

  // ---------------------------------------------------------------------
  // WHERE clauses

  /** `constraints.length > 0 ? "WHERE " + constraints.join(" AND ") : ""`. */
  function WhereClause(constraints: seq<string>): (r: string)
    ensures r == "" <==> constraints == []
  {
    if |constraints| > 0 then "WHERE " + Join(constraints, " AND ") else ""
  }

  /** A non-empty clause starts with `WHERE ` and ends with the last condition. */
  lemma WhereClauseEnds(constraints: seq<string>)
    requires constraints != []
    ensures var r := WhereClause(constraints);
      |r| >= 6 && r[..6] == "WHERE " && EndsWith(r, constraints[|constraints| - 1])
  {
    var joined := Join(constraints, " AND ");
    JoinEnds(constraints, " AND ");
    EndsWithAppend("WHERE ", joined);
    EndsWithTransitive("WHERE " + joined, joined, constraints[|constraints| - 1]);
  }

  /** The criteria `sqlMakeCompWhere` reads; `None` stands for `undefined` or `null`. */
  datatype CompanyFilter = CompanyFilter(name: Option<string>, minEmployees: Option<int>, maxEmployees: Option<int>)

  const NullAllowance := " OR num_employees IS NULL"

  function NameCondition(name: string): (r: string)
    ensures |r| > 0 && r[|r| - 1] == '\''
  {
    "name ILIKE '%" + name + "%'"
  }

  function MinEmployeesCondition(n: int): (r: string)
    ensures |r| > 0 && IsDigit(r[|r| - 1])
  {
    "num_employees >= " + IntToString(n)
  }

  /** The maximum condition; it carries the `IS NULL` allowance when `allowNull`. */
  function MaxEmployeesCondition(n: int, allowNull: bool): (r: string)
    ensures allowNull ==> EndsWith(r, NullAllowance)
    ensures !allowNull ==> |r| > 0 && IsDigit(r[|r| - 1])
  {
    if allowNull then "num_employees <= " + IntToString(n) + NullAllowance
    else "num_employees <= " + IntToString(n)
  }

  function CountTrue(a: bool, b: bool, c: bool): nat {
    (if a then 1 else 0) + (if b then 1 else 0) + (if c then 1 else 0)
  }

  /** The conditions `sqlMakeCompWhere` pushes: one per truthy criterion,
      in the order name, minimum, maximum. */
  function CompanyConditions(f: CompanyFilter): seq<string> {
    (if TruthyString(f.name) then [NameCondition(f.name.value)] else [])
    + (if TruthyNumber(f.minEmployees) then [MinEmployeesCondition(f.minEmployees.value)] else [])
    + (if TruthyNumber(f.maxEmployees)
       then [MaxEmployeesCondition(f.maxEmployees.value, !TruthyNumber(f.minEmployees))]
       else [])
  }

  /** One condition per truthy criterion, the name first, the maximum last,
      the minimum in between. */
  lemma CompanyConditionsOrder(f: CompanyFilter)
    ensures var cs := CompanyConditions(f);
      && |cs| == CountTrue(TruthyString(f.name), TruthyNumber(f.minEmployees), TruthyNumber(f.maxEmployees))
      && (TruthyString(f.name) ==> cs[0] == NameCondition(f.name.value))
      && (TruthyNumber(f.minEmployees) ==>
            cs[if TruthyString(f.name) then 1 else 0] == MinEmployeesCondition(f.minEmployees.value))
      && (TruthyNumber(f.maxEmployees) ==>
            cs[|cs| - 1] == MaxEmployeesCondition(f.maxEmployees.value, !TruthyNumber(f.minEmployees)))
  {
  }

  /** `sqlMakeCompWhere(data)`: builds the list of constraints by conditional
      pushes, then joins it. */
  method SqlMakeCompWhere(data: CompanyFilter) returns (clause: string)
    ensures clause == WhereClause(CompanyConditions(data))
    ensures clause == "" <==>
              !TruthyString(data.name) && !TruthyNumber(data.minEmployees) && !TruthyNumber(data.maxEmployees)
  {
    var constraints: seq<string> := [];
    if TruthyString(data.name) {
      constraints := constraints + [NameCondition(data.name.value)];
    }
    if TruthyNumber(data.minEmployees) {
      constraints := constraints + [MinEmployeesCondition(data.minEmployees.value)];
    }
    if TruthyNumber(data.maxEmployees) {
      constraints := constraints + [MaxEmployeesCondition(data.maxEmployees.value, !TruthyNumber(data.minEmployees))];
    }
    assert constraints == CompanyConditions(data);
    if |constraints| > 0 {
      return "WHERE " + Join(constraints, " AND ");
    }
    return "";
  }

  /** The clause ends with the `IS NULL` allowance exactly when a maximum is
      given without a minimum. */
  lemma CompanyNullAllowance(f: CompanyFilter)
    ensures EndsWith(WhereClause(CompanyConditions(f)), NullAllowance) <==>
              TruthyNumber(f.maxEmployees) && !TruthyNumber(f.minEmployees)
  {
    var cs := CompanyConditions(f);
    var clause := WhereClause(cs);
    CompanyConditionsOrder(f);
    if cs != [] {
      WhereClauseEnds(cs);
      var last := cs[|cs| - 1];
      if TruthyNumber(f.maxEmployees) && !TruthyNumber(f.minEmployees) {
        EndsWithTransitive(clause, last, NullAllowance);
      } else if EndsWith(clause, NullAllowance) {
        // Every other last condition ends with a digit or a quote, not with 'L'.
        EndsWithLastChar(clause, NullAllowance);
        EndsWithLastChar(clause, last);
        assert false;
      }
    }
  }

  /** The criteria `sqlMakeJobWhere` reads; `None` stands for `undefined` or `null`. */
  datatype JobFilter = JobFilter(title: Option<string>, minSalary: Option<int>, hasEquity: Option<bool>)

  function TitleCondition(title: string): string {
    "title ILIKE '%" + title + "%'"
  }

  function MinSalaryCondition(n: int): string {
    "salary > " + IntToString(n)
  }

  const EquityCondition := "equity > 0"

  /** The conditions `sqlMakeJobWhere` pushes: one per truthy criterion, in
      the order title, minimum salary, equity. */
  function JobConditions(f: JobFilter): seq<string> {
    (if TruthyString(f.title) then [TitleCondition(f.title.value)] else [])
    + (if TruthyNumber(f.minSalary) then [MinSalaryCondition(f.minSalary.value)] else [])
    + (if TruthyBool(f.hasEquity) then [EquityCondition] else [])
  }

  /** One condition per truthy criterion, the title first, the equity
      condition last, the salary condition in between. */
  lemma JobConditionsOrder(f: JobFilter)
    ensures var cs := JobConditions(f);
      && |cs| == CountTrue(TruthyString(f.title), TruthyNumber(f.minSalary), TruthyBool(f.hasEquity))
      && (TruthyString(f.title) ==> cs[0] == TitleCondition(f.title.value))
      && (TruthyNumber(f.minSalary) ==>
            cs[if TruthyString(f.title) then 1 else 0] == MinSalaryCondition(f.minSalary.value))
      && (TruthyBool(f.hasEquity) ==> cs[|cs| - 1] == EquityCondition)
  {
  }

  /** `sqlMakeJobWhere(data)`: builds the list of constraints by conditional
      pushes, then joins it. */
  method SqlMakeJobWhere(data: JobFilter) returns (clause: string)
    ensures clause == WhereClause(JobConditions(data))
    ensures clause == "" <==>
              !TruthyString(data.title) && !TruthyNumber(data.minSalary) && !TruthyBool(data.hasEquity)
  {
    var constraints: seq<string> := [];
    if TruthyString(data.title) {
      constraints := constraints + [TitleCondition(data.title.value)];
    }
    if TruthyNumber(data.minSalary) {
      constraints := constraints + [MinSalaryCondition(data.minSalary.value)];
    }
    if TruthyBool(data.hasEquity) {
      constraints := constraints + [EquityCondition];
    }
    assert constraints == JobConditions(data);
    if |constraints| > 0 {
      return "WHERE " + Join(constraints, " AND ");
    }
    return "";
  }

  /** Replaces every falsy criterion by an absent one. */
  function NormalJobFilter(f: JobFilter): JobFilter {
    JobFilter(if TruthyString(f.title) then f.title else None,
              if TruthyNumber(f.minSalary) then f.minSalary else None,
              if TruthyBool(f.hasEquity) then f.hasEquity else None)
  }

  /** A falsy criterion (`""`, `0`, `false`) yields the same clause as an omitted one. */
  lemma JobFalsyIsAbsent(f: JobFilter)
    ensures WhereClause(JobConditions(f)) == WhereClause(JobConditions(NormalJobFilter(f)))
  {
  }

  function NormalCompanyFilter(f: CompanyFilter): CompanyFilter {
    CompanyFilter(if TruthyString(f.name) then f.name else None,
                  if TruthyNumber(f.minEmployees) then f.minEmployees else None,
                  if TruthyNumber(f.maxEmployees) then f.maxEmployees else None)
  }

  /** A falsy criterion (`""`, `0`) yields the same clause as an omitted one. */
  lemma CompanyFalsyIsAbsent(f: CompanyFilter)
    ensures WhereClause(CompanyConditions(f)) == WhereClause(CompanyConditions(NormalCompanyFilter(f)))
  {
  }
}
