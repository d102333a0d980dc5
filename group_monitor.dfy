/** The group monitor: on each timer tick it lists the groups, puts every
    group whose name is not yet in the run list into it and calls the
    after-monitor callback once with that name; quitting resets the run list.
    The timer and the quit channel become explicit events; the callback's
    calls are returned as the sequence of names it received. */
module GroupMonitor {
  import opened Wrappers
  import opened Autoscale
  import opened RunList

  /** The names of `groups`, in listing order. */
  function Names(groups: seq<Group>): (names: seq<string>)
    ensures |names| == |groups|
    ensures forall i :: 0 <= i < |names| ==> names[i] == groups[i].name
  {
    if groups == [] then [] else [groups[0].name] + Names(groups[1..])
  }

  /** The names a tick walks over: those of the listed groups, or none when
      listing failed (the source then ranges over a nil slice). */
  function ListedNames(listing: Result<seq<Group>, Error>): seq<string> {
    if listing.Success? then Names(listing.value) else []
  }

  /** The callbacks a tick makes when `seen` is already in the run list:
      each listed name is checked against the run list as it stands, and
      added to it. */
  function Unseen(seen: set<string>, names: seq<string>): (fired: seq<string>)
    decreases |names|
  {
    if names == [] then []
    else (if names[0] in seen then [] else [names[0]]) + Unseen(seen + {names[0]}, names[1..])
  }

  lemma UnseenCons(seen: set<string>, x: string, names: seq<string>)
    ensures Unseen(seen, [x] + names) == (if x in seen then [] else [x]) + Unseen(seen + {x}, names)
  {
    assert ([x] + names)[1..] == names;
  }

  /** A tick announces exactly the listed names not already running, each
      once, at its first occurrence. */
  lemma {:induction false} UnseenSpec(seen: set<string>, names: seq<string>)
    ensures forall x :: x in Unseen(seen, names) <==> x in names && x !in seen
    ensures NoDuplicates(Unseen(seen, names))
    ensures |Unseen(seen, names)| <= |names|
    decreases |names|
  {
    if names != [] {
      var x, rest := names[0], names[1..];
      assert names == [x] + rest;
      UnseenSpec(seen + {x}, rest);
      var head := if x in seen then [] else [x];
      var tail := Unseen(seen + {x}, rest);
      assert Unseen(seen, names) == head + tail;
      assert x !in tail;
      forall i, j | 0 <= i < j < |head + tail|
        ensures (head + tail)[i] != (head + tail)[j]
      {
        if i < |head| {
          assert (head + tail)[j] == tail[j - |head|];
        } else {
          assert (head + tail)[i] == tail[i - |head|] && (head + tail)[j] == tail[j - |head|];
        }
      }
    }
  }

  /** One step of a tick's loop keeps its invariant. */
  lemma VisitStep(seen: set<string>, names: seq<string>, i: nat, keys: set<string>, fired: seq<string>, added: bool)
    requires i < |names|
    requires keys == seen + Elements(names[..i])
    requires fired + Unseen(keys, names[i..]) == Unseen(seen, names)
    requires added <==> names[i] !in keys
    ensures keys + {names[i]} == seen + Elements(names[..i + 1])
    ensures (fired + if added then [names[i]] else []) + Unseen(keys + {names[i]}, names[i + 1..]) == Unseen(seen, names)
  {
    assert names[..i + 1] == names[..i] + [names[i]];
    assert names[i..] == [names[i]] + names[i + 1..];
    ElementsSnoc(names[..i], names[i]);
    UnseenCons(keys, names[i], names[i + 1..]);
  }

  /** One tick of the group monitor test: two unseen groups give exactly two
      callbacks. */
  lemma TwoUnseenGroups()
    ensures Unseen({}, ["g1", "g2"]) == ["g1", "g2"]
  {
    UnseenCons({}, "g1", ["g2"]);
    UnseenCons({"g1"}, "g2", []);
  }

  /** A name listed twice in one tick fires once. */
  lemma DuplicateNameFiresOnce()
    ensures Unseen({}, ["g1", "g1"]) == ["g1"]
  {
    UnseenCons({}, "g1", ["g1"]);
    UnseenCons({"g1"}, "g1", []);
  }

  /** A name already running does not fire. */
  lemma RunningNameDoesNotFire()
    ensures Unseen({"g1"}, ["g1", "g2"]) == ["g2"]
  {
    UnseenCons({"g1"}, "g1", ["g2"]);
    UnseenCons({"g1"}, "g2", []);
  }

  class GroupMonitor {
    var runList: MemoryRunList
    /** Set once the quit event has been handled. */
    var stopped: bool

    constructor ()
      ensures fresh(runList) && runList.dict == map[] && !stopped
    {
      runList := new MemoryRunList();
      stopped := false;
    }

    method SetRunList(rl: MemoryRunList)
      modifies this
      ensures runList == rl && stopped == old(stopped)
    {
      runList := rl;
    }

    /** Whether the name is in the run list the monitor uses now. */
    function InRunList(groupName: string): (found: bool)
      reads this, runList
      ensures found <==> groupName in runList.dict.Keys
    {
      runList.IsRunning(groupName)
    }

    /** One timer tick. Returns the names passed to the callback. */
    method Tick(listing: Result<seq<Group>, Error>) returns (fired: seq<string>)
      modifies runList
      ensures stopped ==> fired == [] && runList.dict == old(runList.dict)
      ensures !stopped ==> fired == Unseen(old(runList.dict.Keys), ListedNames(listing))
      ensures !stopped ==> runList.dict.Keys == old(runList.dict.Keys) + Elements(ListedNames(listing))
    {
      fired := [];
      if stopped {
        return;
      }
      var groups := if listing.Success? then listing.value else [];
      fired := VisitAll(Names(groups));
    }

    /** The loop of a tick over the listed groups' names. */
    method VisitAll(names: seq<string>) returns (fired: seq<string>)
      modifies runList
      ensures fired == Unseen(old(runList.dict.Keys), names)
      ensures runList.dict.Keys == old(runList.dict.Keys) + Elements(names)
    {
      fired := [];
      ghost var seen := runList.dict.Keys;
      var i := 0;
      while i < |names|
        invariant 0 <= i <= |names|
        invariant runList.dict.Keys == seen + Elements(names[..i])
        invariant fired + Unseen(runList.dict.Keys, names[i..]) == Unseen(seen, names)
      {
        ghost var keys := runList.dict.Keys;
        var added := Visit(names[i]);
        VisitStep(seen, names, i, keys, fired, added);
        fired := fired + if added then [names[i]] else [];
        i := i + 1;
      }
      assert names[..i] == names && names[i..] == [];
    }

    /** One group of a tick: it is added, and announced, unless it is
        already in the run list. */
    method Visit(name: string) returns (added: bool)
      modifies runList
      ensures added <==> name !in old(runList.dict.Keys)
      ensures runList.dict.Keys == old(runList.dict.Keys) + {name}
    {
      added := false;
      if !InRunList(name) {
        var err := runList.Add(name);
        if err == None {
          added := true;
        }
      }
    }

    /** The quit event: the run list is emptied and the monitor stops. */
    method Quit()
      modifies this, runList
      ensures runList == old(runList) && runList.dict == map[] && stopped
    {
      stopped := true;
      var _ := runList.Reset();
    }

    /** What the loop does with one event, seen against the events after it. */
    method Step(e: Event, ghost rest: seq<Event>) returns (fired: seq<string>)
      requires !stopped
      modifies this, runList
      ensures runList == old(runList)
      ensures !stopped ==> fired + Trace(runList.dict.Keys, rest) == Trace(old(runList.dict.Keys), [e] + rest)
      ensures stopped ==> fired == Trace(old(runList.dict.Keys), [e] + rest)
    {
      match e {
        case Tick(listing) =>
          TraceTick(runList.dict.Keys, listing, rest);
          fired := Tick(listing);
        case Quit =>
          TraceQuit(runList.dict.Keys, rest);
          Quit();
          fired := [];
      }
    }

    /** The monitor's loop over a sequence of events. */
    method Run(events: seq<Event>) returns (trace: seq<string>)
      requires !stopped
      modifies this, runList
      ensures runList == old(runList)
      ensures trace == Trace(old(runList.dict.Keys), events)
    {
      trace := [];
      ghost var total := Trace(runList.dict.Keys, events);
      var i := 0;
      while i < |events| && !stopped
        invariant 0 <= i <= |events| && runList == old(runList)
        invariant !stopped ==> trace + Trace(runList.dict.Keys, events[i..]) == total
        invariant stopped ==> trace == total
        decreases |events| - i
      {
        assert events[i..] == [events[i]] + events[i + 1..];
        var fired := Step(events[i], events[i + 1..]);
        trace := trace + fired;
        i := i + 1;
      }
      if !stopped {
        assert events[i..] == [];
      }
    }
  }

  datatype Event = Tick(listing: Result<seq<Group>, Error>) | Quit

  /** The callbacks made over a run of events, with the loop ending at quit.
      Each name fires at most once, and never one already in the run list. */
  function Trace(seen: set<string>, events: seq<Event>): (trace: seq<string>)
    decreases |events|
  {
    if events == [] then []
    else
      match events[0]
      case Quit => []
      case Tick(listing) =>
        var names := ListedNames(listing);
        Unseen(seen, names) + Trace(seen + Elements(names), events[1..])
  }

  lemma TraceTick(seen: set<string>, listing: Result<seq<Group>, Error>, rest: seq<Event>)
    ensures Trace(seen, [Tick(listing)] + rest) ==
            Unseen(seen, ListedNames(listing)) + Trace(seen + Elements(ListedNames(listing)), rest)
  {
    assert ([Tick(listing)] + rest)[1..] == rest;
  }

  lemma TraceQuit(seen: set<string>, rest: seq<Event>)
    ensures Trace(seen, [Quit] + rest) == []
  {
  }

  /** Over a whole run each name fires at most once, and never one that was
      already in the run list when the run began. */
  lemma {:induction false} TraceFiresOnce(seen: set<string>, events: seq<Event>)
    ensures forall x :: x in Trace(seen, events) ==> x !in seen
    ensures NoDuplicates(Trace(seen, events))
    decreases |events|
  {
    if events != [] && events[0].Tick? {
      var names := ListedNames(events[0].listing);
      var fired := Unseen(seen, names);
      var rest := Trace(seen + Elements(names), events[1..]);
      UnseenSpec(seen, names);
      TraceFiresOnce(seen + Elements(names), events[1..]);
      assert Trace(seen, events) == fired + rest;
      forall i, j | 0 <= i < j < |fired + rest|
        ensures (fired + rest)[i] != (fired + rest)[j]
      {
        if i < |fired| <= j {
          assert (fired + rest)[j] in rest;
          assert (fired + rest)[i] in fired;
        }
      }
    }
  }

  /** After the quit event, nothing more is called back. */
  lemma {:induction false} NothingAfterQuit(seen: set<string>, before: seq<Event>, after: seq<Event>)
    ensures Trace(seen, before + [Quit] + after) == Trace(seen, before + [Quit])
    decreases |before|
  {
    if before != [] {
      assert (before + [Quit] + after)[1..] == before[1..] + [Quit] + after;
      assert (before + [Quit])[1..] == before[1..] + [Quit];
      match before[0]
      case Quit =>
      case Tick(listing) =>
        NothingAfterQuit(seen + Elements(ListedNames(listing)), before[1..], after);
    }
  }

  /** The callbacks as the source makes them: its `break` leaves only the
      `select`, so after quit the loop goes on handling ticks, now against
      the emptied run list. */
  function TraceAsWritten(seen: set<string>, events: seq<Event>): seq<string>
    decreases |events|
  {
    if events == [] then []
    else
      match events[0]
      case Quit => TraceAfterQuit({}, events[1..])
      case Tick(listing) =>
        var names := ListedNames(listing);
        Unseen(seen, names) + TraceAsWritten(seen + Elements(names), events[1..])
  }

  /** The loop after quit as written: the quit channel is now nil, so no
      further quit is ever received, and the timer keeps firing. */
  function TraceAfterQuit(seen: set<string>, events: seq<Event>): seq<string>
    decreases |events|
  {
    if events == [] then []
    else
      match events[0]
      case Quit => TraceAfterQuit(seen, events[1..])
      case Tick(listing) =>
        var names := ListedNames(listing);
        Unseen(seen, names) + TraceAfterQuit(seen + Elements(names), events[1..])
  }

  /** A group seen before quit is announced again by a tick after it. */
  lemma TraceAsWrittenRefiresAfterQuit()
    ensures TraceAsWritten({}, [Tick(Success([Group("1", "g1")])), Quit, Tick(Success([Group("1", "g1")]))]) == ["g1", "g1"]
    ensures Trace({}, [Tick(Success([Group("1", "g1")])), Quit, Tick(Success([Group("1", "g1")]))]) == ["g1"]
  {
    var l: Result<seq<Group>, Error> := Success([Group("1", "g1")]);
    assert ListedNames(l) == ["g1"];
    UnseenCons({}, "g1", []);
    UnseenCons({"g1"}, "g1", []);
    assert Elements(["g1"]) == {"g1"};
    var events := [Tick(l), Quit, Tick(l)];
    assert events[1..][1..] == [Tick(l)];
    assert events[1..] == [Quit, Tick(l)];
  }

  /** The package's own test: the monitor is stopped right after it starts,
      and the timer's first tick lists g1 and g2. As written both are called
      back, which is what the test waits for; the corrected loop, which ends
      at quit, calls back neither. */
  lemma StopThenTickTest()
    ensures TraceAsWritten({}, [Quit, Tick(Success([Group("", "g1"), Group("", "g2")]))]) == ["g1", "g2"]
    ensures Trace({}, [Quit, Tick(Success([Group("", "g1"), Group("", "g2")]))]) == []
  {
    var l: Result<seq<Group>, Error> := Success([Group("", "g1"), Group("", "g2")]);
    assert ListedNames(l) == ["g1", "g2"];
    TwoUnseenGroups();
    var events := [Quit, Tick(l)];
    assert events[1..] == [Tick(l)];
    assert events[1..][1..] == [];
  }
}
