/**
 * mlgame/communication/game.py: the game-side helpers that wait for the
 * ML processes' "READY". Its `recv_from_ml`/`recv_from_all_ml` forward to
 * module functions of mlgame/communication/base.py that the file does not
 * define; they are taken to be the game process's registry receives
 * (`CommunicationSet.Recv` and `RecvAll`, without waiting by default), and
 * the waits below work on that registry.
 */
module GameComm {
  import opened Wrappers
  import opened Exceptions
  import opened PyValue
  import opened Communication

  /** What is left of `xs` after taking everything up to and including the first `v` (everything, without one). */
  function DropThrough(xs: seq<Value>, v: Value): seq<Value> {
    if v in xs then xs[FirstIndex(xs, v) + 1..] else []
  }

  /**
   * `while recv(name, to_wait=True) != "READY": pass` on one end: it takes
   * every object up to and including the first "READY"; without one it
   * takes everything and then waits.
   */
  method DrainUntilReady(c: Conn) returns (after: Conn, ready: bool)
    ensures ready <==> READY in c.incoming
    ensures after == c.(incoming := DropThrough(c.incoming, READY))
  {
    ghost var xs := c.incoming;
    var rest := c.incoming;
    ghost var i := 0;
    while true
      invariant i <= FirstIndex(xs, READY) && rest == xs[i..]
      decreases |rest|
    {
      if rest == [] {
        assert i == |xs| == FirstIndex(xs, READY);
        return c.(incoming := []), false;
      }
      var obj := rest[0];
      FirstIndexAt(xs, READY, i);
      rest := rest[1..];
      i := i + 1;
      if obj == READY {
        return c.(incoming := rest), true;
      }
    }
  }

  /** `wait_ml_ready(ml_name)`. */
  method WaitMlReady(cs: CommunicationSet, mlName: string) returns (r: Received)
    requires cs.Valid()
    modifies cs
    ensures cs.Valid()
    ensures mlName !in old(cs.recvEnd) ==> r == Raised(KeyError(mlName)) && cs.recvEnd == old(cs.recvEnd)
    ensures mlName in old(cs.recvEnd) ==>
      var c := old(cs.recvEnd)[mlName];
      r == (if READY in c.incoming then Got(READY) else WouldBlock)
      && cs.recvEnd == old(cs.recvEnd)[mlName := Drained(c)]
    ensures cs.recvNames == old(cs.recvNames) && cs.sendEnd == old(cs.sendEnd) && cs.sendNames == old(cs.sendNames)
  {
    if mlName !in cs.recvEnd {
      return Raised(KeyError(mlName));
    }
    var after, ready := DrainUntilReady(cs.recvEnd[mlName]);
    cs.recvEnd := cs.recvEnd[mlName := after];
    r := if ready then Got(READY) else WouldBlock;
  }

  /** An end after draining until "READY". */
  function Drained(c: Conn): Conn {
    c.(incoming := DropThrough(c.incoming, READY))
  }

  /**
   * Taking a first object without waiting and then draining until "READY"
   * unless that object already was "READY" takes exactly what draining
   * from the start takes.
   */
  lemma FirstPassThenDrain(c: Conn)
    ensures HeadOrNone(c) == READY ==> READY in c.incoming && c.AfterRecv() == Drained(c)
    ensures HeadOrNone(c) != READY ==>
      (READY in c.AfterRecv().incoming <==> READY in c.incoming) && Drained(c.AfterRecv()) == Drained(c)
  {
    var xs := c.incoming;
    if xs != [] && xs[0] != READY {
      assert xs == [xs[0]] + xs[1..];
      if READY in xs {
        assert FirstIndex(xs, READY) == 1 + FirstIndex(xs[1..], READY);
        assert xs[FirstIndex(xs, READY) + 1..] == xs[1..][FirstIndex(xs[1..], READY) + 1..];
      }
    } else if xs != [] {
      assert FirstIndex(xs, READY) == 0;
    }
  }

  /** Every end taken through its first "READY". */
  function AllDrained(ends: map<string, Conn>): map<string, Conn> {
    map n | n in ends :: Drained(ends[n])
  }

  /** `recv_from_all_ml(to_wait=False)`: the first object of every end, or None. */
  method FirstPass(ends: map<string, Conn>, names: seq<string>)
    returns (readyDict: map<string, Value>, after: map<string, Conn>)
    requires Enumerates(names, ends)
    ensures readyDict.Keys == after.Keys == ends.Keys
    ensures forall n :: n in ends ==> readyDict[n] == HeadOrNone(ends[n]) && after[n] == ends[n].AfterRecv()
  {
    var g;
    g, after := ReceiveEach(ends, names, false);
    readyDict := g.m;
  }

  /**
   * The registry after the first pass and the drains of the first `i`
   * names: those are taken through their first "READY", the rest have lost
   * their first object.
   */
  ghost function DrainedThrough(ends: map<string, Conn>, names: seq<string>, i: nat): map<string, Conn>
    requires i <= |names|
  {
    map n | n in ends :: if n in names[..i] then Drained(ends[n]) else ends[n].AfterRecv()
  }

  /** Draining one more name extends the prefix by that name. */
  lemma DrainedThroughStep(ends: map<string, Conn>, names: seq<string>, i: nat)
    requires Enumerates(names, ends) && i < |names|
    ensures names[i] in ends && DrainedThrough(ends, names, i)[names[i]] == ends[names[i]].AfterRecv()
    ensures DrainedThrough(ends, names, i + 1) == DrainedThrough(ends, names, i)[names[i] := Drained(ends[names[i]])]
  {
    assert names[i] !in names[..i] by {
      forall k | 0 <= k < i
        ensures names[..i][k] != names[i]
      {
        assert names[k] != names[i];
      }
    }
    assert names[..i + 1] == names[..i] + [names[i]];
  }

  /** Every name of the registry having "READY" in its pipe is every end having it. */
  lemma AllNamesReady(ends: map<string, Conn>, names: seq<string>)
    requires Enumerates(names, ends)
    requires forall k :: 0 <= k < |names| ==> READY in ends[names[k]].incoming
    ensures forall n :: n in ends ==> READY in ends[n].incoming
  {
    forall n | n in ends
      ensures READY in ends[n].incoming
    {
      var k :| 0 <= k < |names| && names[k] == n;
    }
  }

  /** Draining every name leaves every end taken through its first "READY", with its flags. */
  lemma DrainedThroughAll(ends: map<string, Conn>, names: seq<string>)
    requires Enumerates(names, ends)
    ensures DrainedThrough(ends, names, |names|) == AllDrained(ends)
  {
    assert names[..|names|] == names;
  }

  /**
   * One round of the second loop of `wait_all_ml_ready`: unless the first
   * pass already took "READY" from the `i`-th end, drain it until "READY".
   */
  method WaitOne(ends: map<string, Conn>, names: seq<string>, i: nat, first: Value, before: map<string, Conn>)
    returns (ready: bool, after: map<string, Conn>)
    requires Enumerates(names, ends) && i < |names|
    requires first == HeadOrNone(ends[names[i]]) && before == DrainedThrough(ends, names, i)
    ensures ready <==> READY in ends[names[i]].incoming
    ensures after == DrainedThrough(ends, names, i + 1)
  {
    var name := names[i];
    DrainedThroughStep(ends, names, i);
    FirstPassThenDrain(ends[name]);
    after := before;
    ready := true;
    if first != READY {
      var c;
      c, ready := DrainUntilReady(before[name]);
      after := before[name := c];
    }
  }

  /**
   * The body of `wait_all_ml_ready` on the registry's dict: one receive
   * from every end without waiting, then, in dict order, blocking receives
   * from each end whose first object was not "READY" until one is. It
   * returns the name it is left waiting on, if any: the first one, in dict
   * order, whose pipe holds no "READY".
   */
  method WaitAllReady(ends: map<string, Conn>, names: seq<string>)
    returns (waitingOn: Option<string>, after: map<string, Conn>)
    requires Enumerates(names, ends)
    ensures waitingOn.None? <==> forall n :: n in ends ==> READY in ends[n].incoming
    ensures waitingOn.None? ==> after == AllDrained(ends)
    ensures waitingOn.Some? ==>
      exists j :: 0 <= j < |names| && names[j] == waitingOn.value
        && READY !in ends[names[j]].incoming
        && (forall k :: 0 <= k < j ==> READY in ends[names[k]].incoming)
        && after == DrainedThrough(ends, names, j + 1)
  {
    var readyDict;
    readyDict, after := FirstPass(ends, names);
    assert names[..0] == [];
    var i := 0;
    while i < |names|
      invariant 0 <= i <= |names|
      invariant after == DrainedThrough(ends, names, i)
      invariant forall k :: 0 <= k < i ==> READY in ends[names[k]].incoming
    {
      var ready;
      ready, after := WaitOne(ends, names, i, readyDict[names[i]], after);
      if !ready {
        return Some(names[i]), after;
      }
      i := i + 1;
    }
    DrainedThroughAll(ends, names);
    AllNamesReady(ends, names);
    waitingOn := None;
  }

  /** `wait_all_ml_ready()` on the registry. */
  method WaitAllMlReady(cs: CommunicationSet) returns (waitingOn: Option<string>)
    requires cs.Valid()
    modifies cs
    ensures cs.Valid()
    ensures waitingOn.None? <==> forall n :: n in old(cs.recvEnd) ==> READY in old(cs.recvEnd)[n].incoming
    ensures waitingOn.None? ==> cs.recvEnd == AllDrained(old(cs.recvEnd))
    ensures waitingOn.Some? ==> waitingOn.value in old(cs.recvEnd) && READY !in old(cs.recvEnd)[waitingOn.value].incoming
    ensures cs.recvNames == old(cs.recvNames) && cs.sendEnd == old(cs.sendEnd) && cs.sendNames == old(cs.sendNames)
  {
    var after;
    waitingOn, after := WaitAllReady(cs.recvEnd, cs.recvNames);
    cs.recvEnd := after;
  }
}
