/** Turns the multi-line bus query a client sends into a Bus: the first line is the
    start, the last line the end, the lines between are the intermediate stops. */
module ClientBusParser {
  import opened Exceptions
  import opened JavaLang
  import Bus

  /** `ClientBusParser.parse`: fewer than four lines (after Java's split drops the
      trailing empty lines) is NoSpecifiedJobs; otherwise the bus keeps every line,
      in order, as its provider list. */
  method Parse(query: string) returns (r: Result<Bus.Bus>)
    ensures var stops := JavaSplit(query, '\n');
      && (r.Err? <==> |stops| <= 3)
      && (r.Err? ==> r.error == NoSpecifiedJobs)
      && (r.Ok? ==>
            && r.value.Valid()
            && r.value.startPoint == stops[0]
            && r.value.endPoint == stops[|stops| - 1]
            && r.value.intermediateStopsToBeProcessed == stops[1..|stops| - 1]
            && r.value.providerOrderedTotalStops == stops)
    ensures r.Ok? ==> fresh(r.value)
  {
    var stops := JavaSplit(query, '\n');
    var size := |stops|;
    if size <= 3 {
      return Err(NoSpecifiedJobs);
    }
    var startPoint := stops[0];
    var endPoint := stops[size - 1];
    var targetLocations := new string[size - 2];
    for i := 1 to size - 1
      invariant forall k :: 0 <= k < i - 1 ==> targetLocations[k] == stops[k + 1]
    {
      targetLocations[i - 1] := stops[i];
    }
    assert targetLocations[..] == stops[1..size - 1];
    var bus := new Bus.Bus(startPoint, endPoint, targetLocations[..]);
    assert stops == [startPoint] + stops[1..size - 1] + [endPoint];
    r := Ok(bus);
  }

  /** A query of four stop lines, newline-terminated as the server builds it. */
  lemma FourLineQuerySplits()
    ensures JavaSplit("A\nB\nC\nD\n", '\n') == ["A", "B", "C", "D"]
  {
    var ls := ["A", "B", "C", "D"];
    assert ls[..3] == ["A", "B", "C"];
    ThreeLineQuerySplits();
    assert ConcatLines(ls) == "A\nB\nC\nD\n";
    LinesRoundTrip(ls);
  }

  /** A query of three stop lines. */
  lemma ThreeLineQuerySplits()
    ensures ConcatLines(["A", "B", "C"]) == "A\nB\nC\n"
    ensures JavaSplit("A\nB\nC\n", '\n') == ["A", "B", "C"]
  {
    var ls := ["A", "B", "C"];
    assert ls[..0] == [] && ls[..1] == ["A"] && ls[..2] == ["A", "B"];
    assert ConcatLines(ls[..1]) == "A\n";
    assert ConcatLines(ls[..2]) == "A\nB\n";
    assert ConcatLines(ls) == "A\nB\nC\n";
    LinesRoundTrip(ls);
  }

  /** Four lines give a bus from A to D through B and C; three lines are refused. */
  method ParseScenario()
  {
    FourLineQuerySplits();
    var r := Parse("A\nB\nC\nD\n");
    assert r.Ok?;
    assert r.value.startPoint == "A" && r.value.endPoint == "D";
    assert r.value.intermediateStopsToBeProcessed == ["B", "C"];
    ThreeLineQuerySplits();
    r := Parse("A\nB\nC\n");
    assert r == Err(NoSpecifiedJobs);
  }
}
