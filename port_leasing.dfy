/**
  The port lease allocator: a fixed range of candidate port numbers and the set of
  ports currently leased from it (Services/PortLeaseManager.cs).
*/
module PortLeasing {
  import opened Wrappers

  const Int32Min := -0x8000_0000
  const Int32Max := 0x7FFF_FFFF

  predicate IsInt32(x: int)
  {
    Int32Min <= x <= Int32Max
  }

  /** C#'s unchecked `int` arithmetic: `x` reduced into the 32-bit range, wrapping around. */
  function Wrap32(x: int): (r: int)
    ensures IsInt32(r)
    ensures (x - r) % 0x1_0000_0000 == 0
    ensures IsInt32(x) ==> r == x
  {
    (x - Int32Min) % 0x1_0000_0000 + Int32Min
  }

  /** The .NET exceptions the allocator can throw; both are ArgumentOutOfRangeException. */
  datatype Exception = ArgumentOutOfRange

  /**
    Enumerable.Range(start, count): the `count` consecutive integers from `start`;
    it throws when `count` is negative or the last element would exceed int.MaxValue.
  */
  function EnumerableRange(start: int, count: int): (r: Result<seq<int>, Exception>)
    ensures r.Failure? <==> count < 0 || start + count - 1 > Int32Max
    ensures r.Success? ==> |r.value| == count && forall i :: 0 <= i < count ==> r.value[i] == start + i
    ensures r.Success? ==> forall i, j :: 0 <= i < j < |r.value| ==> r.value[i] < r.value[j]
  {
    if count < 0 || start + count - 1 > Int32Max then Failure(ArgumentOutOfRange)
    else Success(seq(count, i => start + i))
  }

  /** The candidate ports of `new PortLeaseManager(lowerBound, upperBound)`; the count is a 32-bit subtraction. */
  function CandidatePorts(lowerBound: int, upperBound: int): (r: Result<seq<int>, Exception>)
    requires IsInt32(lowerBound) && IsInt32(upperBound)
    ensures r.Failure? <==> Wrap32(upperBound - lowerBound) < 0 || lowerBound + Wrap32(upperBound - lowerBound) - 1 > Int32Max
    ensures r.Success? ==> forall p :: p in r.value <==> lowerBound <= p < lowerBound + Wrap32(upperBound - lowerBound)
  {
    var count := Wrap32(upperBound - lowerBound);
    var r := EnumerableRange(lowerBound, count);
    assert r.Success? ==> forall p :: lowerBound <= p < lowerBound + count ==> p in r.value by {
      if r.Success? {
        forall p | lowerBound <= p < lowerBound + count
          ensures p in r.value
        {
          assert r.value[p - lowerBound] == p;
        }
      }
    }
    r
  }

  /** Without overflow the candidates are exactly `lowerBound .. upperBound - 1`, one each. */
  lemma CandidatePortsExact(lowerBound: int, upperBound: int)
    requires IsInt32(lowerBound) && IsInt32(upperBound)
    requires 0 <= upperBound - lowerBound <= Int32Max
    ensures CandidatePorts(lowerBound, upperBound).Success?
    ensures |CandidatePorts(lowerBound, upperBound).value| == upperBound - lowerBound
    ensures forall p :: p in CandidatePorts(lowerBound, upperBound).value <==> lowerBound <= p < upperBound
  {
  }

  /** An upper bound below the lower bound makes the count negative, so construction throws. */
  lemma InvertedBoundsThrow(lowerBound: int, upperBound: int)
    requires IsInt32(lowerBound) && IsInt32(upperBound)
    requires Int32Min <= upperBound - lowerBound < 0
    ensures CandidatePorts(lowerBound, upperBound) == Failure(ArgumentOutOfRange)
  {
  }

  /**
    When the subtraction overflows, an inverted range does NOT throw: the count wraps to a
    positive number (here `new PortLeaseManager(int.MaxValue, int.MinValue)` gets one candidate).
  */
  lemma OverflowingBoundsConstruct()
    ensures CandidatePorts(Int32Max, Int32Min) == Success([Int32Max])
  {
    assert Wrap32(Int32Min - Int32Max) == 1;
    var r := CandidatePorts(Int32Max, Int32Min).value;
    assert |r| == 1 && r[0] == Int32Max;
    assert r == [Int32Max];
  }

  /**
    Enumerable.Except: the elements of `s` that are not in `excluded`, in order of first
    occurrence and each once (an element already yielded is excluded from then on).
  */
  function Except(s: seq<int>, excluded: set<int>): (r: seq<int>)
    ensures forall x :: x in r <==> x in s && x !in excluded
    ensures forall i, j :: 0 <= i < j < |r| ==> r[i] != r[j]
    ensures |r| <= |s|
  {
    if s == [] then []
    else if s[0] in excluded then Except(s[1..], excluded)
    else [s[0]] + Except(s[1..], excluded + {s[0]})
  }

  /** A set drawn from the elements of `s` has at most `|s|` members. */
  lemma {:induction false} SubsetOfSeqBounded(used: set<int>, s: seq<int>)
    requires forall p :: p in used ==> p in s
    ensures |used| <= |s|
  {
    if s != [] {
      var last := s[|s| - 1];
      var rest := s[..|s| - 1];
      forall p | p in used - {last}
        ensures p in rest
      {
        assert p in s;
        var i :| 0 <= i < |s| && s[i] == p;
        assert rest[i] == p;
      }
      SubsetOfSeqBounded(used - {last}, rest);
      assert |used - {last}| <= |rest| == |s| - 1;
      if last in used {
        assert used == (used - {last}) + {last};
        assert |used| == |used - {last}| + 1;
      } else {
        assert used - {last} == used;
      }
    } else {
      forall p | p in used
        ensures false
      {
      }
    }
  }

  lemma SubsetCardinality(a: set<int>, b: set<int>)
    requires a <= b
    ensures |a| <= |b|
  {
    assert b == a + (b - a);
  }

  /** A duplicate-free sequence has as many distinct elements as it is long. */
  lemma {:induction false} DistinctElementsCount(s: seq<int>)
    requires forall i, j :: 0 <= i < j < |s| ==> s[i] != s[j]
    ensures |set x | x in s| == |s|
  {
    if s != [] {
      var rest := s[1..];
      DistinctElementsCount(rest);
      assert (set x | x in s) == {s[0]} + (set x | x in rest);
    }
  }

  /**
    A leased set drawn from a duplicate-free candidate list and as large as that list
    holds every candidate: nothing is left to lease.
  */
  lemma FullLeaseSetCoversRange(used: set<int>, candidates: seq<int>)
    requires forall i, j :: 0 <= i < j < |candidates| ==> candidates[i] != candidates[j]
    requires forall p :: p in used ==> p in candidates
    requires |used| == |candidates|
    ensures forall p :: p in candidates ==> p in used
    ensures Except(candidates, used) == []
  {
    var all := set x | x in candidates;
    DistinctElementsCount(candidates);
    forall p | p in candidates
      ensures p in used
    {
      if p !in used {
        forall q | q in used
          ensures q in all - {p}
        {
          assert q in candidates;
        }
        assert used <= all - {p};
        assert p in all;
        SubsetCardinality(used, all - {p});
        assert false;
      }
    }
    ExceptOfCoveredIsEmpty(candidates, used);
  }

  lemma {:induction false} ExceptOfCoveredIsEmpty(s: seq<int>, excluded: set<int>)
    requires forall p :: p in s ==> p in excluded
    ensures Except(s, excluded) == []
  {
    if s != [] {
      assert s[0] in s;
      assert forall p :: p in s[1..] ==> p in s;
      ExceptOfCoveredIsEmpty(s[1..], excluded);
      assert Except(s, excluded) == Except(s[1..], excluded);
    }
  }

  /** PortLeaseManager: `_availablePortsRange` and the mutable `_usedPorts` set. */
  class PortLeaseManager {
    const lowerBound: int
    const upperBound: int
    const availablePortsRange: seq<int>
    var usedPorts: set<int>

    /** Only candidates are ever leased. */
    ghost predicate Valid()
      reads this
    {
      && IsInt32(lowerBound) && IsInt32(upperBound)
      && CandidatePorts(lowerBound, upperBound) == Success(availablePortsRange)
      && forall p :: p in usedPorts ==> p in availablePortsRange
    }

    /** The ports a lease may currently return: `_availablePortsRange.Except(_usedPorts)`. */
    function AvailablePorts(): (r: seq<int>)
      reads this
    {
      Except(availablePortsRange, usedPorts)
    }

    constructor (lowerBound: int, upperBound: int)
      requires IsInt32(lowerBound) && IsInt32(upperBound)
      requires CandidatePorts(lowerBound, upperBound).Success?
      ensures Valid()
      ensures this.lowerBound == lowerBound && this.upperBound == upperBound
      ensures usedPorts == {}
    {
      this.lowerBound := lowerBound;
      this.upperBound := upperBound;
      availablePortsRange := CandidatePorts(lowerBound, upperBound).value;
      usedPorts := {};
    }

    /** `new PortLeaseManager(lowerBound, upperBound)`, including the ArgumentOutOfRangeException of Enumerable.Range. */
    static method Create(lowerBound: int, upperBound: int) returns (r: Result<PortLeaseManager, Exception>)
      requires IsInt32(lowerBound) && IsInt32(upperBound)
      ensures r.Success? <==> CandidatePorts(lowerBound, upperBound).Success?
      ensures r.Success? ==> fresh(r.value) && r.value.Valid() && r.value.usedPorts == {}
      ensures r.Success? ==> r.value.lowerBound == lowerBound && r.value.upperBound == upperBound
      ensures r.Failure? ==> r.error == ArgumentOutOfRange
    {
      var candidates := CandidatePorts(lowerBound, upperBound);
      if candidates.Failure? {
        return Failure(candidates.error);
      }
      var manager := new PortLeaseManager(lowerBound, upperBound);
      return Success(manager);
    }

    /**
      Leases a port picked at random among the free candidates. `Random.Next(0)` is 0, so with
      no free candidate the list indexer throws and nothing changes.
    */
    method LeaseAvailableRandomPort() returns (r: Result<int, Exception>)
      requires Valid()
      modifies this
      ensures Valid()
      ensures r.Failure? <==> forall p :: p in availablePortsRange ==> p in old(usedPorts)
      ensures r.Success? ==> r.value in availablePortsRange && r.value !in old(usedPorts)
      ensures r.Success? ==> usedPorts == old(usedPorts) + {r.value}
      ensures r.Failure? ==> usedPorts == old(usedPorts) && r.error == ArgumentOutOfRange
    {
      var availablePorts := Except(availablePortsRange, usedPorts);
      var index := 0;
      if |availablePorts| > 0 {
        index :| 0 <= index < |availablePorts|;
      }
      if index >= |availablePorts| {
        return Failure(ArgumentOutOfRange);
      }
      var port := availablePorts[index];
      usedPorts := usedPorts + {port};
      return Success(port);
    }

    /** Ends the lease on `port`; a port that is not leased is left as it is. */
    method StopLease(port: int)
      requires Valid()
      modifies this
      ensures Valid()
      ensures usedPorts == old(usedPorts) - {port}
      ensures port in availablePortsRange ==> port in AvailablePorts()
    {
      usedPorts := usedPorts - {port};
    }
  }

  /** Across any sequence of leases and releases at most `|range|` ports are leased. */
  lemma LeasedCountBounded(m: PortLeaseManager)
    requires m.Valid()
    ensures |m.usedPorts| <= |m.availablePortsRange|
    ensures 0 <= m.upperBound - m.lowerBound <= Int32Max ==> |m.usedPorts| <= m.upperBound - m.lowerBound
  {
    SubsetOfSeqBounded(m.usedPorts, m.availablePortsRange);
    if 0 <= m.upperBound - m.lowerBound <= Int32Max {
      CandidatePortsExact(m.lowerBound, m.upperBound);
    }
  }

  /** Once as many ports are leased as the range holds, nothing is available and the next lease throws. */
  lemma FullManagerHasNothingAvailable(m: PortLeaseManager)
    requires m.Valid()
    requires |m.usedPorts| == |m.availablePortsRange|
    ensures m.AvailablePorts() == []
    ensures forall p :: p in m.availablePortsRange ==> p in m.usedPorts
  {
    FullLeaseSetCoversRange(m.usedPorts, m.availablePortsRange);
  }
}
