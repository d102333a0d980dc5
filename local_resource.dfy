/** The local resource manager: a counter of instances, for testing
    without a cloud provider. */
module LocalResource {
  import opened Autoscale

  /** The name of the i-th allocated instance, counting from one. */
  function InstanceName(i: nat): string
  {
    "instance-" + NatToString(i)
  }

  /** The number can be read back from the name. */
  lemma InstanceNameParses(i: nat)
    ensures |InstanceName(i)| > 9 && InstanceName(i)[..9] == "instance-"
    ensures ParseNat(InstanceName(i)[9..]) == i
  {
    assert InstanceName(i)[9..] == NatToString(i);
    ParseNatToString(i);
  }

  /** Instances with different numbers have different names. */
  lemma InstanceNamesDistinct(i: nat, j: nat)
    ensures InstanceName(i) == InstanceName(j) ==> i == j
  {
    if InstanceName(i) == InstanceName(j) {
      assert InstanceName(i)[9..] == NatToString(i);
      assert InstanceName(j)[9..] == NatToString(j);
      NatToStringInjective(i, j);
    }
  }

  class LocalResource {
    var count: int

    constructor ()
      ensures count == 0
    {
      count := 0;
    }

    method Actual() returns (n: int)
      ensures n == count
    {
      n := count;
    }

    /** Adds `byN` instances; the count is not kept from going negative. */
    method ScaleUp(g: Group, byN: int)
      modifies this
      ensures count == old(count) + byN
    {
      count := count + byN;
    }

    method ScaleDown(g: Group, byN: int)
      modifies this
      ensures count == old(count) - byN
    {
      count := count - byN;
    }

    /** One allocation per instance, named in order; none when the count
        is zero or negative. */
    method Allocated() returns (names: seq<string>)
      ensures |names| == if count > 0 then count else 0
      ensures forall i :: 0 <= i < |names| ==> names[i] == InstanceName(i + 1)
      ensures NoDuplicates(names)
    {
      names := [];
      var i := 0;
      while i < count
        invariant 0 <= i && |names| == i
        invariant i <= if count > 0 then count else 0
        invariant forall k :: 0 <= k < i ==> names[k] == InstanceName(k + 1)
      {
        names := names + [InstanceName(i + 1)];
        i := i + 1;
      }
      forall i, j | 0 <= i < j < |names| ensures names[i] != names[j] {
        InstanceNamesDistinct(i + 1, j + 1);
      }
    }
  }

  /** Scaling up and then down by the same amount restores the count. */
  method ScaleRoundTrip(r: LocalResource, g: Group, byN: int)
    modifies r
    ensures r.count == old(r.count)
  {
    r.ScaleUp(g, byN);
    r.ScaleDown(g, byN);
  }
}
