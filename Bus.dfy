/** A bus line as the transport provider publishes it: a start, an end and the
    ordered intermediate stops, plus the copy of the intermediate stops that the
    solver is given (and that a test run shuffles). */
module Bus {

  /** `s` with the elements at i and j exchanged. */
  function SwapAt(s: seq<string>, i: nat, j: nat): (r: seq<string>)
    requires i < |s| && j < |s|
    ensures |r| == |s|
  {
    seq(|s|, k requires 0 <= k < |s| => if k == i then s[j] else if k == j then s[i] else s[k])
  }

  /** The two positions trade their elements; every other position keeps its own. */
  lemma SwapAtExchanges(s: seq<string>, i: nat, j: nat)
    requires i < |s| && j < |s|
    ensures SwapAt(s, i, j)[i] == s[j] && SwapAt(s, i, j)[j] == s[i]
    ensures forall k :: 0 <= k < |s| && k != i && k != j ==> SwapAt(s, i, j)[k] == s[k]
  {
  }

  /** Every random pick is an index of a list of the given size, as
      `new Random().nextInt(size)` guarantees. */
  predicate PicksInRange(picks: seq<int>, size: nat) {
    forall k :: 0 <= k < |picks| ==> 0 <= picks[k] < size
  }

  /** The list after the first n rounds of the shuffle loop, round k exchanging
      positions k and picks[k] when they differ. Whatever the random picks, the
      shuffle only reorders: the elements keep their multiplicities. */
  function Shuffled(s: seq<string>, picks: seq<int>, n: nat): (r: seq<string>)
    requires n <= |picks| && n <= |s| && PicksInRange(picks, |s|)
    ensures |r| == |s|
    ensures multiset(r) == multiset(s)
  {
    if n == 0 then s
    else
      var t := Shuffled(s, picks, n - 1);
      if n - 1 != picks[n - 1] then SwapPreservesMultiset(t, n - 1, picks[n - 1]); SwapAt(t, n - 1, picks[n - 1]) else t
  }

  lemma SwapPreservesMultiset(s: seq<string>, i: nat, j: nat)
    requires i < |s| && j < |s|
    ensures multiset(SwapAt(s, i, j)) == multiset(s)
  {
    var t := s[i := s[j]];
    assert SwapAt(s, i, j) == t[j := s[i]];
    assert multiset(t) == multiset(s) - multiset{s[i]} + multiset{s[j]};
    assert multiset(t[j := s[i]]) == multiset(t) - multiset{t[j]} + multiset{s[i]};
  }

  class Bus {
    var startPoint: string
    var endPoint: string
    var providerOrderedTotalStops: seq<string>
    var intermediateStopsToBeProcessed: seq<string>

    /** The provider list is the start, the intermediate stops in some order, and the end. */
    ghost predicate Valid()
      reads this
    {
      && |providerOrderedTotalStops| == |intermediateStopsToBeProcessed| + 2
      && providerOrderedTotalStops[0] == startPoint
      && providerOrderedTotalStops[|providerOrderedTotalStops| - 1] == endPoint
      && multiset(providerOrderedTotalStops[1..|providerOrderedTotalStops| - 1])
         == multiset(intermediateStopsToBeProcessed)
    }

    /** `new Bus(startPoint, endPoint, stops...)`: the provider list gets the start,
        every stop and the end; the list to be processed gets every stop. */
    constructor (startPoint: string, endPoint: string, providerOrderedIntermediateStops: seq<string>)
      ensures Valid()
      ensures this.startPoint == startPoint && this.endPoint == endPoint
      ensures providerOrderedTotalStops == [startPoint] + providerOrderedIntermediateStops + [endPoint]
      ensures intermediateStopsToBeProcessed == providerOrderedIntermediateStops
    {
      this.startPoint := startPoint;
      this.endPoint := endPoint;
      providerOrderedTotalStops := [];
      intermediateStopsToBeProcessed := [];
      new;
      providerOrderedTotalStops := providerOrderedTotalStops + [startPoint];
      for k := 0 to |providerOrderedIntermediateStops|
        invariant providerOrderedTotalStops == [startPoint] + providerOrderedIntermediateStops[..k]
        invariant intermediateStopsToBeProcessed == providerOrderedIntermediateStops[..k]
        invariant this.startPoint == startPoint && this.endPoint == endPoint
      {
        var stop := providerOrderedIntermediateStops[k];
        providerOrderedTotalStops := providerOrderedTotalStops + [stop];
        intermediateStopsToBeProcessed := intermediateStopsToBeProcessed + [stop];
        assert providerOrderedIntermediateStops[..k + 1] == providerOrderedIntermediateStops[..k] + [stop];
      }
      assert providerOrderedIntermediateStops[..|providerOrderedIntermediateStops|] == providerOrderedIntermediateStops;
      providerOrderedTotalStops := providerOrderedTotalStops + [endPoint];
      assert providerOrderedTotalStops[1..|providerOrderedTotalStops| - 1] == providerOrderedIntermediateStops;
    }

    /** Exchanges two intermediate stops; the private method is only called with indices
        of the list. */
    method Swap(i: nat, j: nat)
      requires i < |intermediateStopsToBeProcessed| && j < |intermediateStopsToBeProcessed|
      modifies this
      ensures intermediateStopsToBeProcessed == SwapAt(old(intermediateStopsToBeProcessed), i, j)
      ensures startPoint == old(startPoint) && endPoint == old(endPoint)
      ensures providerOrderedTotalStops == old(providerOrderedTotalStops)
    {
      var firstStop := intermediateStopsToBeProcessed[i];
      intermediateStopsToBeProcessed := intermediateStopsToBeProcessed[i := intermediateStopsToBeProcessed[j]];
      intermediateStopsToBeProcessed := intermediateStopsToBeProcessed[j := firstStop];
    }

    /** The shuffle with its random draws given as `picks` (one draw per position).
        Only the list to be processed changes, into a permutation of itself. */
    method ShuffleIntermediateStopsToBeProcessed(picks: seq<int>)
      requires Valid()
      requires |picks| == |intermediateStopsToBeProcessed|
      requires PicksInRange(picks, |intermediateStopsToBeProcessed|)
      modifies this
      ensures Valid()
      ensures intermediateStopsToBeProcessed == Shuffled(old(intermediateStopsToBeProcessed), picks, |picks|)
      ensures multiset(intermediateStopsToBeProcessed) == multiset(old(intermediateStopsToBeProcessed))
      ensures startPoint == old(startPoint) && endPoint == old(endPoint)
      ensures providerOrderedTotalStops == old(providerOrderedTotalStops)
    {
      ShuffleRounds(picks);
    }

    /** The loop of the shuffle: round i exchanges positions i and picks[i]. */
    method ShuffleRounds(picks: seq<int>)
      requires |picks| == |intermediateStopsToBeProcessed|
      requires PicksInRange(picks, |intermediateStopsToBeProcessed|)
      modifies this
      ensures intermediateStopsToBeProcessed == Shuffled(old(intermediateStopsToBeProcessed), picks, |picks|)
      ensures startPoint == old(startPoint) && endPoint == old(endPoint)
      ensures providerOrderedTotalStops == old(providerOrderedTotalStops)
    {
      ghost var original := intermediateStopsToBeProcessed;
      var size := |intermediateStopsToBeProcessed|;
      if size == 0 {
        return;
      }
      for i := 0 to size
        invariant |intermediateStopsToBeProcessed| == size
        invariant intermediateStopsToBeProcessed == Shuffled(original, picks, i)
        invariant startPoint == old(startPoint) && endPoint == old(endPoint)
        invariant providerOrderedTotalStops == old(providerOrderedTotalStops)
      {
        ShuffleRound(picks, i, original);
      }
    }

    /** Round i of the shuffle loop: exchange positions i and picks[i] when they differ. */
    method ShuffleRound(picks: seq<int>, i: nat, ghost original: seq<string>)
      requires i < |picks| && |picks| == |original| && PicksInRange(picks, |original|)
      requires intermediateStopsToBeProcessed == Shuffled(original, picks, i)
      modifies this
      ensures intermediateStopsToBeProcessed == Shuffled(original, picks, i + 1)
      ensures startPoint == old(startPoint) && endPoint == old(endPoint)
      ensures providerOrderedTotalStops == old(providerOrderedTotalStops)
    {
      var j := picks[i];
      if i != j {
        Swap(i, j);
      }
    }

    method GetStartPoint() returns (startPoint: string)
      ensures startPoint == this.startPoint
    {
      startPoint := this.startPoint;
    }

    method GetEndPoint() returns (endPoint: string)
      ensures endPoint == this.endPoint
    {
      endPoint := this.endPoint;
    }

    method GetProviderOrderedTotalStops() returns (stops: seq<string>)
      ensures stops == providerOrderedTotalStops
    {
      stops := providerOrderedTotalStops;
    }

    method GetIntermediateStopsToBeProcessed() returns (stops: seq<string>)
      ensures stops == intermediateStopsToBeProcessed
    {
      stops := intermediateStopsToBeProcessed;
    }
  }

  /** Rounds whose pick is their own position exchange nothing: when every pick of the
      first n rounds is its own position, the list is unchanged. */
  lemma {:induction false} ShuffleOfFixedPicks(s: seq<string>, picks: seq<int>, n: nat)
    requires n <= |picks| && n <= |s| && PicksInRange(picks, |s|)
    requires forall k :: 0 <= k < n ==> picks[k] == k
    ensures Shuffled(s, picks, n) == s
    decreases n
  {
    if n > 0 {
      ShuffleOfFixedPicks(s, picks, n - 1);
    }
  }

  /** A bus with at most one intermediate stop keeps its order, whatever the draws. */
  lemma ShuffleOfAtMostOne(s: seq<string>, picks: seq<int>)
    requires |s| <= 1 && |s| <= |picks| && PicksInRange(picks, |s|)
    ensures Shuffled(s, picks, |s|) == s
  {
    ShuffleOfFixedPicks(s, picks, |s|);
  }
}
