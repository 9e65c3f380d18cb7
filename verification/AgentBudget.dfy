/** Turn limits and the detector of repeated tool calls. */
module AgentBudget {
  import opened Messages

  lemma ProductOfNonNegatives(x: real, y: real)
    requires x >= 0.0 && y >= 0.0
    ensures x * y >= 0.0
  {
  }

  lemma ShareAndRest(whole: real, share: real)
    ensures whole * share + whole * (1.0 - share) == whole
  {
  }

  /** A share of some rounds, in whole rounds, is no more than all of them. */
  lemma ShareIsAtMost(rounds: int, share: real)
    requires rounds >= 1 && share <= 1.0
    ensures (rounds as real * share).Floor <= rounds
  {
    ProductOfNonNegatives(rounds as real, 1.0 - share);
    ShareAndRest(rounds as real, share);
  }

  datatype TurnLimits = TurnLimits(maxRounds: int, warnFraction: real, synthesizeOnExhaust: bool) {
    /** The share of the rounds after which the model is warned: at least half of them. */
    function Fraction(): (f: real)
      ensures 0.5 <= f <= 1.0
      ensures 0.5 <= warnFraction <= 1.0 ==> f == warnFraction
      ensures warnFraction < 0.5 ==> f == 0.5
      ensures warnFraction > 1.0 ==> f == 1.0
    {
      if warnFraction < 0.5 then 0.5 else if warnFraction > 1.0 then 1.0 else warnFraction
    }

    /** The round from which the model is told to finish. */
    function WarnRounds(): (n: int)
      ensures 1 <= n
      ensures maxRounds >= 1 ==> n <= maxRounds
      // It is that share of the rounds, in whole rounds, if that is any at all.
      ensures n > 1 ==> n as real <= maxRounds as real * Fraction() < n as real + 1.0
      ensures n == 1 ==> maxRounds as real * Fraction() < 2.0
    {
      var product := maxRounds as real * Fraction();
      var whole := if product >= 0.0 then product.Floor else -((-product).Floor);
      assert maxRounds >= 1 && product >= 0.0 ==> whole <= maxRounds by {
        if maxRounds >= 1 {
          ShareIsAtMost(maxRounds, Fraction());
        }
      }
      if whole > 1 then whole else 1
    }
  }

  const TRACKED := 16

  /** A call as the detector sees it: the tool's name and a digest of its input. */
  datatype Fingerprint = Fingerprint(name: string, digest: string)

  function Fingerprints(uses: seq<Block>, digest: string -> string): seq<Fingerprint> {
    if uses == [] then []
    else
      var b := uses[|uses| - 1];
      Fingerprints(uses[..|uses| - 1], digest) +
      if b.ToolUse? then [Fingerprint(b.name, digest(b.input))] else []
  }

  /** Calls look alike to the detector exactly if name and digest of the input agree. */
  lemma {:induction false} FingerprintsOfCalls(uses: seq<Block>, digest: string -> string)
    requires forall b | b in uses :: b.ToolUse?
    ensures |Fingerprints(uses, digest)| == |uses|
    ensures forall k | 0 <= k < |uses| :: Fingerprints(uses, digest)[k] == Fingerprint(uses[k].name, digest(uses[k].input))
  {
    if uses != [] {
      assert uses[|uses| - 1] in uses && forall b | b in uses[..|uses| - 1] :: b in uses;
      FingerprintsOfCalls(uses[..|uses| - 1], digest);
    }
  }

  function LastOf(calls: seq<Fingerprint>, n: nat): seq<Fingerprint> {
    if |calls| > n then calls[|calls| - n..] else calls
  }

  class LoopTracker {
    var recent: seq<Fingerprint>
    ghost var history: seq<Fingerprint>

    /** The tracker remembers the tail of everything recorded. */
    ghost predicate Valid()
      reads this
    {
      recent == LastOf(history, TRACKED)
    }

    constructor ()
      ensures Valid() && history == []
    {
      recent, history := [], [];
    }

    method Record(uses: seq<Block>, digest: string -> string)
      requires Valid()
      modifies this
      ensures Valid() && history == old(history) + Fingerprints(uses, digest)
    {
      ghost var before, all := recent, history;
      for i := 0 to |uses|
        invariant recent == before + Fingerprints(uses[..i], digest)
        invariant history == all
      {
        assert uses[..i + 1][..i] == uses[..i];
        var b := uses[i];
        if b.ToolUse? {
          recent := recent + [Fingerprint(b.name, digest(b.input))];
        }
      }
      assert uses[..|uses|] == uses;
      history := history + Fingerprints(uses, digest);
      if |recent| > TRACKED {
        recent := recent[|recent| - TRACKED..];
      }
    }

    /** Exact although only sixteen calls are kept: the last two calls of the whole run agree. */
    method HasRepeat() returns (r: bool)
      requires Valid()
      ensures r <==> |history| >= 2 && history[|history| - 1] == history[|history| - 2]
    {
      if |recent| < 2 {
        return false;
      }
      return recent[|recent| - 1] == recent[|recent| - 2];
    }
  }
}
