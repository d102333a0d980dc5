/** The in-memory run list: the set of group IDs currently being autoscaled,
    kept as the keys of a map. The mutex of the source is left out: every
    call here runs to completion before the next starts. */
module RunList {
  import opened Wrappers
  import opened Autoscale

  class MemoryRunList {
    var dict: map<string, bool>

    constructor ()
      ensures dict == map[]
    {
      dict := map[];
    }

    /** Whether `groupID` is in the run list. */
    function IsRunning(groupID: string): (running: bool)
      reads this
      ensures running <==> groupID in dict.Keys
      ensures running ==> |dict| >= 1
    {
      groupID in dict
    }

    /** Puts `groupID` in the run list; never fails. */
    method Add(groupID: string) returns (err: Option<Error>)
      modifies this
      ensures err == None
      ensures dict == old(dict)[groupID := true]
      ensures dict.Keys == old(dict.Keys) + {groupID}
    {
      dict := dict[groupID := true];
      return None;
    }

    /** Takes `groupID` out of the run list, if it is there; never fails. */
    method Remove(groupID: string) returns (err: Option<Error>)
      modifies this
      ensures err == None
      ensures dict == old(dict) - {groupID}
      ensures dict.Keys == old(dict.Keys) - {groupID}
    {
      dict := dict - {groupID};
      return None;
    }

    /** Every running ID exactly once, in no particular order. */
    method List() returns (out: seq<string>)
      ensures forall id :: id in out <==> IsRunning(id)
      ensures NoDuplicates(out)
      ensures |out| == |dict.Keys|
    {
      out := [];
      var rest := dict.Keys;
      while rest != {}
        invariant rest <= dict.Keys
        invariant forall id :: id in out <==> id in dict.Keys - rest
        invariant NoDuplicates(out)
        invariant |out| + |rest| == |dict.Keys|
        decreases |rest|
      {
        var k :| k in rest;
        out := out + [k];
        rest := rest - {k};
      }
    }

    /** Empties the run list; never fails. */
    method Reset() returns (err: Option<Error>)
      modifies this
      ensures err == None
      ensures dict == map[]
    {
      dict := map[];
      return None;
    }
  }

  /** Adding and removing touch only the ID named: a client's view. After
      adding `a` twice, adding `b` and removing `a` twice, the list holds `b`
      and not `a`, and a reset leaves nothing running. */
  method RunListExamples(a: string, b: string) returns (ids: seq<string>, runningAfterReset: bool)
    requires a != b
    ensures b in ids && a !in ids
    ensures !runningAfterReset
  {
    var rl := new MemoryRunList();
    var err := rl.Add(a);
    err := rl.Add(a);
    assert rl.IsRunning(a) && !rl.IsRunning(b);
    err := rl.Add(b);
    err := rl.Remove(a);
    assert !rl.IsRunning(a) && rl.IsRunning(b);
    err := rl.Remove(a);
    assert !rl.IsRunning(a) && rl.IsRunning(b);
    ids := rl.List();
    err := rl.Reset();
    runningAfterReset := rl.IsRunning(b);
  }
}
