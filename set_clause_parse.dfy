/** A reader for the `SET` list that `sqlForPartialUpdate` produces. Reading
    the list back shows what each placeholder stands for: entry `i` names the
    column of the `i`-th payload field and the placeholder `$(i+1)`, which
    binds `values[i]`. */
module SetClauseParse {
  import opened Wrappers
  import opened JsText
  import opened Sql

  /** Index of the first occurrence of `c` in `s`, or `|s|` when there is none. */
  function IndexOf(s: string, c: char): (k: nat)
    ensures k <= |s|
  {
    if s == [] then 0 else if s[0] == c then 0 else 1 + IndexOf(s[1..], c)
  }

  /** Length of the longest prefix of `s` that is made of decimal digits. */
  function DigitRun(s: string): (k: nat)
    ensures k <= |s| && AllDigits(s[..k])
  {
    if s == [] || !IsDigit(s[0]) then 0
    else
      var k := 1 + DigitRun(s[1..]);
      assert forall i :: 1 <= i < k ==> s[..k][i] == s[1..][..k - 1][i - 1];
      k
  }

  /** Reads one entry `"<column>"=$<digits>` from the front of `s` and returns
      the column, the placeholder number and what follows. */
  function ParseFragment(s: string): (r: Option<((string, nat), string)>)
    ensures r.Some? ==> |r.value.1| < |s|
  {
    if |s| == 0 || s[0] != '"' then None else ParseQuotedColumn(s[1..])
  }

  /** Reads `<column>"=$<digits>`, the entry after its opening quote. */
  function ParseQuotedColumn(s: string): (r: Option<((string, nat), string)>)
    ensures r.Some? ==> |r.value.1| < |s|
  {
    var close := IndexOf(s, '"');
    if close + 3 > |s| || s[close + 1] != '=' || s[close + 2] != '$' then None
    else ParsePlaceholder(s[..close], s[close + 3..])
  }

  /** Reads the placeholder number of `column`, the digits after `=$`, in
      canonical decimal only: a run of more than one digit may not start with `0`. */
  function ParsePlaceholder(column: string, s: string): (r: Option<((string, nat), string)>)
    ensures r.Some? ==> |r.value.1| < |s|
  {
    var k := DigitRun(s);
    if k == 0 || (k > 1 && s[0] == '0') then None else Some(((column, ParseNat(s[..k])), s[k..]))
  }

  /** Reads a non-empty `SET` list: entries separated by `", "`. */
  function ParseSetCols(s: string): Option<seq<(string, nat)>>
    decreases |s|
  {
    match ParseFragment(s)
    case None => None
    case Some(((column, n), rest)) =>
      if rest == "" then Some([(column, n)])
      else if |rest| >= 2 && rest[..2] == ", " then
        match ParseSetCols(rest[2..])
        case None => None
        case Some(more) => Some([(column, n)] + more)
      else None
  }

  function Fragments(asgs: seq<(string, nat)>): seq<string> {
    seq(|asgs|, i requires 0 <= i < |asgs| => Fragment(asgs[i].0, asgs[i].1))
  }

  predicate QuoteFree(column: string) {
    '"' !in column
  }

  lemma {:induction false} IndexOfQuoteAfter(column: string, rest: string)
    requires QuoteFree(column) && |rest| > 0 && rest[0] == '"'
    ensures IndexOf(column + rest, '"') == |column|
    decreases |column|
  {
    if column != [] {
      assert (column + rest)[1..] == column[1..] + rest;
      IndexOfQuoteAfter(column[1..], rest);
    }
  }

  lemma {:induction false} DigitRunOfDigits(digits: string, tail: string)
    requires AllDigits(digits) && (tail == "" || !IsDigit(tail[0]))
    ensures DigitRun(digits + tail) == |digits|
    decreases |digits|
  {
    if digits != [] {
      assert (digits + tail)[1..] == digits[1..] + tail;
      DigitRunOfDigits(digits[1..], tail);
    }
  }

  lemma ParsePlaceholderOf(column: string, n: nat, tail: string)
    requires tail == "" || tail[0] == ','
    ensures ParsePlaceholder(column, NatToString(n) + tail) == Some(((column, n), tail))
  {
    var digits := NatToString(n);
    assert n == 0 ==> |digits| == 1;
    DigitRunOfDigits(digits, tail);
    assert (digits + tail)[..|digits|] == digits;
    assert (digits + tail)[|digits|..] == tail;
    ParseNatOfNatToString(n);
  }

  lemma ParseQuotedColumnOf(column: string, rest: string)
    requires QuoteFree(column)
    ensures ParseQuotedColumn(column + ("\"=$" + rest)) == ParsePlaceholder(column, rest)
  {
    var s := column + ("\"=$" + rest);
    IndexOfQuoteAfter(column, "\"=$" + rest);
    assert s[..|column|] == column;
    assert s[|column| + 3..] == rest;
  }

  /** An entry is read back whole when the column holds no quote and the
      entry is followed by nothing or by a comma. */
  lemma ParseFragmentOfFragment(column: string, n: nat, tail: string)
    requires QuoteFree(column)
    requires tail == "" || tail[0] == ','
    ensures ParseFragment(Fragment(column, n) + tail) == Some(((column, n), tail))
  {
    var rest := NatToString(n) + tail;
    var s := Fragment(column, n) + tail;
    assert s == "\"" + (column + ("\"=$" + rest));
    assert s[1..] == column + ("\"=$" + rest);
    ParseQuotedColumnOf(column, rest);
    ParsePlaceholderOf(column, n, tail);
  }

  lemma ParseSetColsLast(s: string, entry: (string, nat))
    requires ParseFragment(s) == Some((entry, ""))
    ensures ParseSetCols(s) == Some([entry])
  {
  }

  lemma ParseSetColsStep(s: string, entry: (string, nat), more: string, entries: seq<(string, nat)>)
    requires ParseFragment(s) == Some((entry, ", " + more))
    requires ParseSetCols(more) == Some(entries)
    ensures ParseSetCols(s) == Some([entry] + entries)
  {
    var tail := ", " + more;
    assert tail[..2] == ", " && tail[2..] == more;
  }

  lemma FragmentsCons(asgs: seq<(string, nat)>)
    requires |asgs| > 0
    ensures var frags := Fragments(asgs);
      |frags| == |asgs| && frags[0] == Fragment(asgs[0].0, asgs[0].1) && frags[1..] == Fragments(asgs[1..])
  {
  }

  lemma ParseSingleFragment(entry: (string, nat))
    requires QuoteFree(entry.0)
    ensures ParseSetCols(Join(Fragments([entry]), ", ")) == Some([entry])
  {
    var first := Fragment(entry.0, entry.1);
    JoinFragmentsSingle(entry);
    ParseFragmentOfFragment(entry.0, entry.1, "");
    assert first + "" == first;
    ParseSetColsLast(first, entry);
  }

  lemma ParseMoreFragments(asgs: seq<(string, nat)>)
    requires |asgs| > 1 && QuoteFree(asgs[0].0)
    requires ParseSetCols(Join(Fragments(asgs[1..]), ", ")) == Some(asgs[1..])
    ensures ParseSetCols(Join(Fragments(asgs), ", ")) == Some(asgs)
  {
    var more := Join(Fragments(asgs[1..]), ", ");
    var tail := ", " + more;
    assert [asgs[0]] + asgs[1..] == asgs;
    JoinFragmentsCons(asgs[0], asgs[1..]);
    assert tail[0] == ',';
    ParseFragmentOfFragment(asgs[0].0, asgs[0].1, tail);
    ParseSetColsStep(Join(Fragments(asgs), ", "), asgs[0], more, asgs[1..]);
  }

  lemma JoinFragmentsSingle(entry: (string, nat))
    ensures Join(Fragments([entry]), ", ") == Fragment(entry.0, entry.1)
  {
    FragmentsCons([entry]);
  }

  lemma JoinFragmentsCons(entry: (string, nat), more: seq<(string, nat)>)
    requires |more| > 0
    ensures Join(Fragments([entry] + more), ", ") == Fragment(entry.0, entry.1) + (", " + Join(Fragments(more), ", "))
  {
    var asgs := [entry] + more;
    FragmentsCons(asgs);
    assert asgs[1..] == more;
    JoinCons(Fragments(asgs), ", ");
  }

  /** Reading back the joined entries gives the columns and numbers in order. */
  lemma {:induction false} ParseSetColsOfJoin(asgs: seq<(string, nat)>)
    requires |asgs| > 0
    requires forall i :: 0 <= i < |asgs| ==> QuoteFree(asgs[i].0)
    ensures ParseSetCols(Join(Fragments(asgs), ", ")) == Some(asgs)
    decreases |asgs|
  {
    if |asgs| == 1 {
      ParseSingleFragment(asgs[0]);
      assert [asgs[0]] == asgs;
    } else {
      ParseSetColsOfJoin(asgs[1..]);
      ParseMoreFragments(asgs);
    }
  }

  /** The `SET` list of a successful update reads back as its assignments. */
  lemma SetColsReadBack(data: Payload, jsToSql: map<string, string>)
    requires |data| > 0
    requires forall i :: 0 <= i < |data| ==> QuoteFree(ColumnName(data[i].0, jsToSql))
    ensures SqlForPartialUpdate(data, jsToSql).Ok?
    ensures ParseSetCols(SqlForPartialUpdate(data, jsToSql).value.setCols) == Some(Assignments(data, jsToSql))
  {
    var asgs := Assignments(data, jsToSql);
    assert forall i :: 0 <= i < |asgs| ==> QuoteFree(asgs[i].0);
    ParseSetColsOfJoin(asgs);
    SetColsIsJoin(data, jsToSql);
  }

  /** The `SET` list is the joined entries of the payload's assignments. */
  lemma SetColsIsJoin(data: Payload, jsToSql: map<string, string>)
    requires |data| > 0
    ensures SqlForPartialUpdate(data, jsToSql).Ok?
    ensures SqlForPartialUpdate(data, jsToSql).value.setCols == Join(Fragments(Assignments(data, jsToSql)), ", ")
  {
    assert Cols(Keys(data), jsToSql) == Fragments(Assignments(data, jsToSql));
  }

  /** For quote-free column names, a text reads back as the payload's
      assignments exactly when it is the `SET` list the builder returns. */
  lemma SetColsOnlySpelling(data: Payload, jsToSql: map<string, string>, s: string)
    requires |data| > 0
    requires forall i :: 0 <= i < |data| ==> QuoteFree(ColumnName(data[i].0, jsToSql))
    ensures SqlForPartialUpdate(data, jsToSql).Ok?
    ensures ParseSetCols(s) == Some(Assignments(data, jsToSql)) <==> s == SqlForPartialUpdate(data, jsToSql).value.setCols
  {
    SetColsReadBack(data, jsToSql);
    if ParseSetCols(s) == Some(Assignments(data, jsToSql)) {
      ParseSetColsText(s);
      SetColsIsJoin(data, jsToSql);
    }
  }


  /** The `SET` list of a successful update reads back as one entry per
      payload field, in payload order: entry `p` names that field's column
      and the placeholder `$(p+1)`, and that placeholder binds the field's
      value. This is what lets a caller number its own parameters from
      `values.length + 1` on. */
  lemma PlaceholdersBindValues(data: Payload, jsToSql: map<string, string>)
    requires |data| > 0
    requires forall i :: 0 <= i < |data| ==> QuoteFree(ColumnName(data[i].0, jsToSql))
    ensures SqlForPartialUpdate(data, jsToSql).Ok?
    ensures var r := SqlForPartialUpdate(data, jsToSql).value;
      var parsed := ParseSetCols(r.setCols);
      && parsed.Some?
      && |parsed.value| == |r.values| == |data|
      && forall p :: 0 <= p < |data| ==>
           && parsed.value[p].0 == ColumnName(data[p].0, jsToSql)
           && parsed.value[p].1 == p + 1
           && r.values[parsed.value[p].1 - 1] == data[p].1
  {
    SetColsReadBack(data, jsToSql);
  }

  /** The placeholders of one `SET` list are pairwise distinct. */
  lemma PlaceholdersDistinct(data: Payload, jsToSql: map<string, string>, p: nat, q: nat)
    requires |data| > 0
    requires forall i :: 0 <= i < |data| ==> QuoteFree(ColumnName(data[i].0, jsToSql))
    requires p < q < |data|
    ensures SqlForPartialUpdate(data, jsToSql).Ok?
    ensures var parsed := ParseSetCols(SqlForPartialUpdate(data, jsToSql).value.setCols);
      parsed.Some? && |parsed.value| == |data| && parsed.value[p].1 != parsed.value[q].1
  {
    SetColsReadBack(data, jsToSql);
  }

  // ---------------------------------------------------------------------
  // The reader accepts each list in one spelling only

  /** `IndexOf` finds the first occurrence: none before it, and one at it
      unless it is `|s|`. */
  lemma {:induction false} IndexOfFirst(s: string, c: char)
    ensures forall i :: 0 <= i < IndexOf(s, c) ==> s[i] != c
    ensures IndexOf(s, c) < |s| ==> s[IndexOf(s, c)] == c
    decreases |s|
  {
    if s != [] && s[0] != c {
      IndexOfFirst(s[1..], c);
    }
  }

  /** A placeholder is read only from its canonical decimal text. */
  lemma ParsePlaceholderText(column: string, s: string)
    requires ParsePlaceholder(column, s).Some?
    ensures var ((col, n), rest) := ParsePlaceholder(column, s).value;
      col == column && s == NatToString(n) + rest
  {
    var k := DigitRun(s);
    NatToStringOfParseNat(s[..k]);
    assert s == s[..k] + s[k..];
  }

  /** A column is read only as the quote-free text before the closing quote and `=$`. */
  lemma ParseQuotedColumnText(s: string)
    requires ParseQuotedColumn(s).Some?
    ensures var ((column, n), rest) := ParseQuotedColumn(s).value;
      QuoteFree(column) && s == column + ("\"=$" + (NatToString(n) + rest))
  {
    var close := IndexOf(s, '"');
    IndexOfFirst(s, '"');
    var column := s[..close];
    assert forall i :: 0 <= i < |column| ==> column[i] == s[i];
    ParsePlaceholderText(column, s[close + 3..]);
    SplitAtAssignment(s, close);
  }

  lemma SplitAtAssignment(s: string, i: nat)
    requires i + 3 <= |s| && s[i] == '"' && s[i + 1] == '=' && s[i + 2] == '$'
    ensures s == s[..i] + ("\"=$" + s[i + 3..])
  {
    assert s[i..i + 3] == "\"=$";
    assert s == s[..i] + (s[i..i + 3] + s[i + 3..]);
  }

  /** An entry is read only from the text `Fragment` writes for it. */
  lemma ParseFragmentText(s: string)
    requires ParseFragment(s).Some?
    ensures var ((column, n), rest) := ParseFragment(s).value;
      QuoteFree(column) && s == Fragment(column, n) + rest
  {
    var t := s[1..];
    assert ParseFragment(s) == ParseQuotedColumn(t);
    ParseQuotedColumnText(t);
    var ((column, n), rest) := ParseQuotedColumn(t).value;
    FragmentThen(column, n, rest);
    assert s == "\"" + t;
  }

  /** `Fragment` followed by more text, with the concatenations grouped to the right. */
  lemma FragmentThen(column: string, n: nat, rest: string)
    ensures Fragment(column, n) + rest == "\"" + (column + ("\"=$" + (NatToString(n) + rest)))
  {
  }

  /** Whatever text the reader accepts is exactly the joined entries it
      returns, so a `SET` list has a single spelling. */
  lemma {:induction false} ParseSetColsText(s: string)
    requires ParseSetCols(s).Some?
    ensures var asgs := ParseSetCols(s).value;
      && |asgs| > 0
      && (forall i :: 0 <= i < |asgs| ==> QuoteFree(asgs[i].0))
      && s == Join(Fragments(asgs), ", ")
    decreases |s|
  {
    ParseFragmentText(s);
    var (entry, rest) := ParseFragment(s).value;
    if rest == "" {
      assert ParseSetCols(s).value == [entry];
      JoinFragmentsSingle(entry);
      assert s == Fragment(entry.0, entry.1) + "";
    } else {
      var tail := rest[2..];
      ParseSetColsText(tail);
      var more := ParseSetCols(tail).value;
      assert ParseSetCols(s).value == [entry] + more;
      JoinFragmentsCons(entry, more);
      assert rest == ", " + tail;
    }
  }
}
