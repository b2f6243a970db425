/** The path-instruction cache: the narrative of the best path for every directed
    pair of stops, keyed by the two-element list [start, end]. */
module CostMatrixWrapper {
  import opened Exceptions

  /** The key of a leg. Keys are ordered lists, so (a, b) and (b, a) are different keys. */
  function CreateListPoints(startPoint: string, endPoint: string): (key: seq<string>)
    ensures |key| == 2 && key[0] == startPoint && key[1] == endPoint
  {
    [startPoint, endPoint]
  }

  /** What a lookup of the leg (startPoint, endPoint) in `m` yields. */
  function Lookup(m: map<seq<string>, string>, startPoint: string, endPoint: string): Result<string>
  {
    var key := CreateListPoints(startPoint, endPoint);
    if key in m then Ok(m[key]) else Err(NoInstructionsFound)
  }

  class CostMatrixWrapper {
    /** The Java field `map`: leg key to narrative. */
    var instructionMap: map<seq<string>, string>

    /** The default constructor: no leg is known. */
    constructor ()
      ensures instructionMap == map[]
    {
      instructionMap := map[];
    }

    /** The constructor from a map: starts with a copy of the given map's entries, whatever its keys. */
    constructor FromMap(m: map<seq<string>, string>)
      ensures instructionMap == m
    {
      instructionMap := m;
    }

    /** Records the narrative of the leg, replacing any earlier one for the same leg. */
    method AddPathInstructions(startPoint: string, endPoint: string, instructions: string)
      modifies this
      ensures instructionMap == old(instructionMap)[CreateListPoints(startPoint, endPoint) := instructions]
    {
      var listPoints := CreateListPoints(startPoint, endPoint);
      if listPoints in instructionMap {
        instructionMap := instructionMap - {listPoints};
      }
      instructionMap := instructionMap[listPoints := instructions];
    }

    /** The narrative of the leg, or NoInstructionsFound when the leg was never added.
        Reads the map and changes nothing. */
    method GetPathInstructions(startPoint: string, endPoint: string) returns (r: Result<string>)
      ensures r.Ok? <==> [startPoint, endPoint] in instructionMap
      ensures r.Ok? ==> r.value == instructionMap[[startPoint, endPoint]]
      ensures r.Err? ==> r.error == NoInstructionsFound
      ensures r == Lookup(instructionMap, startPoint, endPoint)
    {
      var listPoints := CreateListPoints(startPoint, endPoint);
      if listPoints !in instructionMap {
        return Err(NoInstructionsFound);
      }
      r := Ok(instructionMap[listPoints]);
    }
  }

  /** Two legs share a key exactly when they have the same start and the same end. */
  lemma KeysAreDirected(a: string, b: string, c: string, d: string)
    ensures CreateListPoints(a, b) == CreateListPoints(c, d) <==> a == c && b == d
  {
    if CreateListPoints(a, b) == CreateListPoints(c, d) {
      assert CreateListPoints(a, b)[0] == CreateListPoints(c, d)[0];
      assert CreateListPoints(a, b)[1] == CreateListPoints(c, d)[1];
    }
  }

  /** After adding a leg, looking it up returns what was added. */
  lemma AddThenGet(m: map<seq<string>, string>, a: string, b: string, s: string)
    ensures Lookup(m[CreateListPoints(a, b) := s], a, b) == Ok(s)
  {
  }

  /** Adding the same leg twice keeps only the second narrative. */
  lemma LastWriteWins(m: map<seq<string>, string>, a: string, b: string, s1: string, s2: string)
    ensures m[CreateListPoints(a, b) := s1][CreateListPoints(a, b) := s2] == m[CreateListPoints(a, b) := s2]
    ensures Lookup(m[CreateListPoints(a, b) := s1][CreateListPoints(a, b) := s2], a, b) == Ok(s2)
  {
  }

  /** Adding a leg leaves the lookup of every other leg as it was, the reverse leg included. */
  lemma AddLeavesOthers(m: map<seq<string>, string>, a: string, b: string, s: string, c: string, d: string)
    requires a != c || b != d
    ensures Lookup(m[CreateListPoints(a, b) := s], c, d) == Lookup(m, c, d)
  {
    KeysAreDirected(a, b, c, d);
  }

  /** A leg that is not in the map cannot be looked up. */
  lemma MissingLegFails(m: map<seq<string>, string>, a: string, b: string)
    requires CreateListPoints(a, b) !in m
    ensures Lookup(m, a, b) == Err(NoInstructionsFound)
  {
  }

  /** A default-constructed wrapper: every lookup fails until a leg is added, adding
      answers that leg only, and the reverse leg stays unknown. */
  method CacheScenario(a: string, b: string, s: string)
    requires a != b
  {
    var cmw := new CostMatrixWrapper();
    var r := cmw.GetPathInstructions(a, b);
    assert r == Err(NoInstructionsFound);
    cmw.AddPathInstructions(a, b, s);
    r := cmw.GetPathInstructions(a, b);
    assert r == Ok(s);
    r := cmw.GetPathInstructions(b, a);
    assert r == Err(NoInstructionsFound);
    cmw.AddPathInstructions(a, b, s + s);
    r := cmw.GetPathInstructions(a, b);
    assert r == Ok(s + s);
  }
}
