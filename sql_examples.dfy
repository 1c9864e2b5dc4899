/** The cases of helpers/sql.test.js, stated about the model. Each case is
    assembled from small steps so that no single proof has to evaluate a
    whole clause at once. */
module SqlExamples {
  import opened Wrappers
  import opened JsText
  import opened Sql

  lemma Numerals()
    ensures NatToString(1) == "1" && NatToString(2) == "2" && NatToString(3) == "3" && NatToString(4) == "4"
    ensures IntToString(1) == "1" && IntToString(12) == "12" && IntToString(200) == "200"
  {
    assert DigitChar(0) == '0' && DigitChar(1) == '1' && DigitChar(2) == '2';
    assert DigitChar(3) == '3' && DigitChar(4) == '4';
    assert NatToString(12) == NatToString(1) + [DigitChar(2)];
    assert NatToString(20) == NatToString(2) + [DigitChar(0)];
    assert NatToString(200) == NatToString(20) + [DigitChar(0)];
  }

  lemma WhereOfOne(a: string)
    ensures WhereClause([a]) == "WHERE " + a
  {
  }

  lemma WhereOfOneThen(a: string, b: string)
    ensures WhereClause([a + b]) == ("WHERE " + a) + b
  {
    WhereOfOne(a + b);
  }

  lemma WhereOfThree(a: string, b: string, c: string)
    ensures WhereClause([a, b, c]) == "WHERE " + a + " AND " + b + " AND " + c
  {
    assert [a, b, c][1..] == [b, c] && [b, c][1..] == [c];
    assert Join([b, c], " AND ") == b + " AND " + c;
    assert Join([a, b, c], " AND ") == a + " AND " + (b + " AND " + c);
  }

  lemma JoinOfFour(a: string, b: string, c: string, d: string)
    ensures Join([a, b, c, d], ", ") == (a + ", ") + (b + ", ") + (c + ", ") + d
  {
    assert [a, b, c, d][1..] == [b, c, d] && [b, c, d][1..] == [c, d] && [c, d][1..] == [d];
    assert Join([c, d], ", ") == (c + ", ") + d;
    assert Join([b, c, d], ", ") == (b + ", ") + ((c + ", ") + d);
    assert Join([a, b, c, d], ", ") == (a + ", ") + ((b + ", ") + ((c + ", ") + d));
  }

  // sqlForPartialUpdate: "works"

  const TestData: Payload :=
    [("firstname", JsString("paul")), ("lastname", JsString("walker")),
     ("age", JsNumber(30)), ("location", JsString("nyc"))]

  const TestColumns: map<string, string> :=
    map["firstname" := "first_name", "lastname" := "last_name", "age" := "age", "location" := "location"]

  lemma TestFragments()
    ensures Fragment(ColumnName("firstname", TestColumns), 1) == "\"first_name\"=$1"
    ensures Fragment(ColumnName("lastname", TestColumns), 2) == "\"last_name\"=$2"
    ensures Fragment(ColumnName("age", TestColumns), 3) == "\"age\"=$3"
    ensures Fragment(ColumnName("location", TestColumns), 4) == "\"location\"=$4"
  {
    Numerals();
  }

  // A proof step only: literal concatenation, split out to keep the examples cheap to verify.
  lemma TestPieces()
    ensures "\"first_name\"=$1" + ", " == "\"first_name\"=$1, "
    ensures "\"last_name\"=$2" + ", " == "\"last_name\"=$2, "
    ensures "\"age\"=$3" + ", " == "\"age\"=$3, "
  {
  }

  lemma PartialUpdateExample()
    ensures SqlForPartialUpdate(TestData, TestColumns)
            == Ok(SetClause("\"first_name\"=$1, " + "\"last_name\"=$2, " + "\"age\"=$3, " + "\"location\"=$4",
                            [JsString("paul"), JsString("walker"), JsNumber(30), JsString("nyc")]))
  {
    var keys := Keys(TestData);
    assert keys == ["firstname", "lastname", "age", "location"];
    var cols := Cols(keys, TestColumns);
    TestFragments();
    assert cols == ["\"first_name\"=$1", "\"last_name\"=$2", "\"age\"=$3", "\"location\"=$4"];
    JoinOfFour("\"first_name\"=$1", "\"last_name\"=$2", "\"age\"=$3", "\"location\"=$4");
    TestPieces();
    assert Values(TestData) == [JsString("paul"), JsString("walker"), JsNumber(30), JsString("nyc")];
  }

  // sqlMakeCompWhere

  lemma CompanyNameConditions()
    ensures CompanyConditions(CompanyFilter(Some("test"), None, None)) == [NameCondition("test")]
  {
    assert |"test"| == 4;
  }

  lemma CompanyNameExample()
    ensures WhereClause(CompanyConditions(CompanyFilter(Some("test"), None, None))) == "WHERE name ILIKE '%test%'"
  {
    CompanyNameConditions();
    WhereOfOne(NameCondition("test"));
  }

  lemma CompanyMinConditions()
    ensures CompanyConditions(CompanyFilter(None, Some(12), None)) == ["num_employees >= 12"]
  {
    Numerals();
    assert MinEmployeesCondition(12) == "num_employees >= 12";
  }

  lemma CompanyMinExample()
    ensures WhereClause(CompanyConditions(CompanyFilter(None, Some(12), None))) == "WHERE num_employees >= 12"
  {
    CompanyMinConditions();
    WhereOfOne("num_employees >= 12");
  }

  lemma CompanyMaxOnlyConditions()
    ensures CompanyConditions(CompanyFilter(None, None, Some(12))) == ["num_employees <= 12" + NullAllowance]
  {
    Numerals();
    assert MaxEmployeesCondition(12, true) == "num_employees <= 12" + NullAllowance;
  }

  lemma CompanyMaxOnlyExample()
    ensures WhereClause(CompanyConditions(CompanyFilter(None, None, Some(12))))
            == "WHERE num_employees <= 12" + " OR num_employees IS NULL"
  {
    CompanyMaxOnlyConditions();
    WhereOfOneThen("num_employees <= 12", NullAllowance);
    MaxOnlyPrefix();
  }

  // A proof step only: literal concatenation, split out to keep the examples cheap to verify.
  lemma MaxOnlyPrefix()
    ensures "WHERE " + "num_employees <= 12" == "WHERE num_employees <= 12"
  {
  }

  lemma CompanyAllConditions()
    ensures CompanyConditions(CompanyFilter(Some("test"), Some(1), Some(12)))
            == ["name ILIKE '%test%'", "num_employees >= 1", "num_employees <= 12"]
  {
    assert |"test"| == 4;
    Numerals();
    assert NameCondition("test") == "name ILIKE '%test%'";
    assert MinEmployeesCondition(1) == "num_employees >= 1";
    assert MaxEmployeesCondition(12, false) == "num_employees <= 12";
  }

  // A proof step only: literal concatenation, split out to keep the examples cheap to verify.
  lemma CompanyAllPieces()
    ensures "WHERE " + "name ILIKE '%test%'" == "WHERE name ILIKE '%test%'"
    ensures " AND " + "num_employees >= 1" == " AND num_employees >= 1"
    ensures " AND " + "num_employees <= 12" == " AND num_employees <= 12"
  {
  }

  lemma CompanyAllExample()
    ensures WhereClause(CompanyConditions(CompanyFilter(Some("test"), Some(1), Some(12))))
            == "WHERE name ILIKE '%test%'" + " AND num_employees >= 1" + " AND num_employees <= 12"
  {
    CompanyAllConditions();
    WhereOfThree("name ILIKE '%test%'", "num_employees >= 1", "num_employees <= 12");
    CompanyAllPieces();
  }

  lemma CompanyNoCriteriaExample()
    ensures WhereClause(CompanyConditions(CompanyFilter(None, None, None))) == ""
  {
  }

  // sqlMakeJobWhere

  lemma JobTitleExample()
    ensures WhereClause(JobConditions(JobFilter(Some("test"), None, None))) == "WHERE title ILIKE '%test%'"
  {
    assert |"test"| == 4;
    assert JobConditions(JobFilter(Some("test"), None, None)) == [TitleCondition("test")];
    WhereOfOne(TitleCondition("test"));
  }

  lemma JobMinSalaryConditions()
    ensures JobConditions(JobFilter(None, Some(200), None)) == ["salary > 200"]
  {
    Numerals();
    assert MinSalaryCondition(200) == "salary > 200";
  }

  lemma JobMinSalaryExample()
    ensures WhereClause(JobConditions(JobFilter(None, Some(200), None))) == "WHERE salary > 200"
  {
    JobMinSalaryConditions();
    WhereOfOne("salary > 200");
  }

  lemma JobEquityExample()
    ensures WhereClause(JobConditions(JobFilter(None, None, Some(true)))) == "WHERE equity > 0"
  {
    assert JobConditions(JobFilter(None, None, Some(true))) == [EquityCondition];
    WhereOfOne(EquityCondition);
  }

  lemma JobAllConditions()
    ensures JobConditions(JobFilter(Some("test"), Some(200), Some(true)))
            == ["title ILIKE '%test%'", "salary > 200", "equity > 0"]
  {
    assert |"test"| == 4;
    Numerals();
    assert TitleCondition("test") == "title ILIKE '%test%'";
    assert MinSalaryCondition(200) == "salary > 200";
  }

  // A proof step only: literal concatenation, split out to keep the examples cheap to verify.
  lemma JobAllPieces()
    ensures "WHERE " + "title ILIKE '%test%'" == "WHERE title ILIKE '%test%'"
    ensures " AND " + "salary > 200" == " AND salary > 200"
    ensures " AND " + "equity > 0" == " AND equity > 0"
  {
  }

  lemma JobAllExample()
    ensures WhereClause(JobConditions(JobFilter(Some("test"), Some(200), Some(true))))
            == "WHERE title ILIKE '%test%'" + " AND salary > 200" + " AND equity > 0"
  {
    JobAllConditions();
    WhereOfThree("title ILIKE '%test%'", "salary > 200", "equity > 0");
    JobAllPieces();
  }

  lemma JobNoCriteriaExample()
    ensures WhereClause(JobConditions(JobFilter(None, None, None))) == ""
  {
  }
}
