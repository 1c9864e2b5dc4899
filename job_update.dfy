/** How `Job.update` in models/job.js uses the update builder: it passes an
    empty column map, numbers the job id placeholder `values.length + 1`, and
    binds the values followed by the id. The database call itself is not
    modelled. */
module JobUpdate {
  import opened Wrappers
  import opened JsText
  import opened Sql
  import opened SetClauseParse

  /** The parts of the `UPDATE jobs SET ... WHERE id = ...` statement that
      depend on the payload, and the parameter list sent with it. */
  datatype UpdateStatement = UpdateStatement(setCols: string, idPlaceholder: string, params: seq<JsValue>)

  function JobUpdateStatement(jobId: JsValue, data: Payload): (r: Result<UpdateStatement, Error>)
    ensures r.Err? <==> |data| == 0
    ensures r.Err? ==> r.error == BadRequest("No data")
    ensures r.Ok? ==> |r.value.params| == |data| + 1 && r.value.params[|data|] == jobId
    ensures r.Ok? ==> r.value.params[..|data|] == Values(data)
    ensures r.Ok? ==> r.value.idPlaceholder == "$" + NatToString(|data| + 1)
  {
    match SqlForPartialUpdate(data, map[])
    case Err(e) => Err(e)
    case Ok(SetClause(setCols, values)) =>
      Ok(UpdateStatement(setCols, "$" + NatToString(|values| + 1), values + [jobId]))
  }

  /** Every placeholder of the statement binds the intended parameter: each
      payload field's placeholder binds its value, and the id placeholder,
      numbered after all of them, binds the job id. */
  lemma JobUpdateBindsParams(jobId: JsValue, data: Payload)
    requires |data| > 0
    requires forall i :: 0 <= i < |data| ==> QuoteFree(data[i].0)
    ensures JobUpdateStatement(jobId, data).Ok?
    ensures var st := JobUpdateStatement(jobId, data).value;
      var parsed := ParseSetCols(st.setCols);
      && parsed.Some?
      && |parsed.value| == |data|
      && (forall p :: 0 <= p < |data| ==>
            && parsed.value[p].0 == data[p].0
            && 1 <= parsed.value[p].1 < |st.params|
            && st.params[parsed.value[p].1 - 1] == data[p].1)
      && st.idPlaceholder == "$" + NatToString(|st.params|)
      && st.params[|st.params| - 1] == jobId
  {
    var m: map<string, string> := map[];
    forall i | 0 <= i < |data|
      ensures QuoteFree(ColumnName(data[i].0, m))
    {
      assert ColumnName(data[i].0, m) == data[i].0;
    }
    SetColsReadBack(data, m);
    JobUpdateStatementFields(jobId, data);
    var r := SqlForPartialUpdate(data, m).value;
    var st := JobUpdateStatement(jobId, data).value;
    var asgs := Assignments(data, m);
    AssignmentsWithoutMap(data);
    assert ParseSetCols(st.setCols) == Some(asgs);
    forall p | 0 <= p < |data|
      ensures && asgs[p].0 == data[p].0
              && 1 <= asgs[p].1 < |st.params|
              && st.params[asgs[p].1 - 1] == data[p].1
    {
      assert st.params[p] == r.values[p];
    }
  }

  /** The statement's `SET` list and parameters in terms of the clause the builder returns. */
  lemma JobUpdateStatementFields(jobId: JsValue, data: Payload)
    requires |data| > 0
    ensures SqlForPartialUpdate(data, map[]).Ok? && JobUpdateStatement(jobId, data).Ok?
    ensures var clause := SqlForPartialUpdate(data, map[]).value;
      var st := JobUpdateStatement(jobId, data).value;
      st.setCols == clause.setCols && st.params == clause.values + [jobId]
  {
  }

  /** With no column names mapped, each entry of the `SET` list names its own key. */
  lemma AssignmentsWithoutMap(data: Payload)
    ensures |Assignments(data, map[])| == |data|
    ensures forall p :: 0 <= p < |data| ==> Assignments(data, map[])[p] == (data[p].0, p + 1)
  {
  }
}
