/** Dispatcher records: one line of the dispatcher file,
    `<service-name>,<driver-role>,<executor-role>`. */
module Dispatchers {
  import opened Results
  import opened Text

  datatype Dispatcher = Dispatcher(serviceName: string, driverRole: string, executorRole: string)

  /** Unpacking `line.split(',')` into three names raises `ValueError`
      when the line does not have exactly three fields; the error keeps the
      number of fields found. */
  datatype ParseError = WrongFieldCount(fields: nat)

  /** The line as the dispatcher file holds it. */
  function Format(d: Dispatcher): string
  {
    Join(",", [d.serviceName, d.driverRole, d.executorRole])
  }

  predicate WellFormed(d: Dispatcher)
  {
    ',' !in d.serviceName && ',' !in d.driverRole && ',' !in d.executorRole
  }

  /** `parse_dispatcher`: the three comma-separated fields of the line. */
  function ParseDispatcher(line: string): (r: Result<Dispatcher, ParseError>)
    ensures r.Ok? ==> WellFormed(r.value)
    ensures r.Err? ==> r.error.fields != 3
  {
    var fields := Split(line, ',');
    if |fields| == 3 then Ok(Dispatcher(fields[0], fields[1], fields[2]))
    else Err(WrongFieldCount(|fields|))
  }

  /** `parse_dispatcher` succeeds exactly when the line holds two commas;
      the three comma-free fields it returns rebuild the line, and a failure
      reports how many fields the line has. */
  lemma ParseDispatcherSpec(line: string)
    ensures ParseDispatcher(line).Ok? <==> multiset(line)[','] == 2
    ensures ParseDispatcher(line).Ok? ==>
      WellFormed(ParseDispatcher(line).value) && Format(ParseDispatcher(line).value) == line
    ensures ParseDispatcher(line).Err? ==> ParseDispatcher(line).error.fields == multiset(line)[','] + 1
  {
    var fields := Split(line, ',');
    SplitCount(line, ',');
    JoinSplit(line, ',');
    if |fields| == 3 {
      assert fields == [fields[0], fields[1], fields[2]] && "," == [','];
    }
  }

  /** Every well-formed record survives being written as a line and parsed
      back. */
  lemma ParseFormat(d: Dispatcher)
    requires WellFormed(d)
    ensures ParseDispatcher(Format(d)) == Ok(d)
  {
    var parts := [d.serviceName, d.driverRole, d.executorRole];
    SplitJoin(parts, ',');
    assert Split(Format(d), ',') == parts;
  }
}
