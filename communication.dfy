/**
 * mlgame/communication.py: the registry of named communication objects,
 * the handler holding one receiving and one sending object, and the
 * managers the game process and each ML process build on them.
 *
 * A communication object is a value here (`Conn`): the objects waiting to
 * be received from it and the objects sent through it so far. A blocking
 * receive on an end with nothing waiting does not return in the source;
 * the model reports it as `WouldBlock` instead.
 */
module Communication {
  import opened Wrappers
  import opened Exceptions
  import opened PyValue

  /**
   * A communication object such as one end of a `multiprocessing.Pipe`:
   * which of `recv`, `poll` and `send` it provides, whether it is truthy,
   * whether its peer has gone (so that `send` raises BrokenPipeError), the
   * objects waiting to be received and the objects sent through it.
   */
  datatype Conn = Conn(
    hasRecv: bool, hasPoll: bool, hasSend: bool, truthy: bool, broken: bool,
    incoming: seq<Value>, sent: seq<Value>)
  {
    /** The end after one `recv()`: its first waiting object is gone. */
    function AfterRecv(): Conn {
      if incoming != [] then this.(incoming := incoming[1..]) else this
    }

    /** The end after `send(obj)`. */
    function Pushed(obj: Value): Conn {
      this.(sent := sent + [obj])
    }
  }

  /** One end of a fresh `Pipe()`: it can receive and send, and is truthy. */
  function PipeEnd(incoming: seq<Value>): (c: Conn)
    ensures c.hasRecv && c.hasPoll && c.hasSend && c.truthy && !c.broken
    ensures c.incoming == incoming && c.sent == []
  {
    Conn(true, true, true, true, false, incoming, [])
  }

  /** The object a `recv()` on `c` yields, or None when nothing is waiting. */
  function HeadOrNone(c: Conn): Value {
    if c.incoming != [] then c.incoming[0] else NoneV
  }

  /** What a receive gives back: an object, a caller left waiting, or an exception. */
  datatype Received = Got(obj: Value) | WouldBlock | Raised(e: PyException)

  /** What receiving from several ends gives back. */
  datatype Gathered = Objects(m: map<string, Value>) | Blocked | Failed(e: PyException)

  /** The first of two checks that fails, or Pass. */
  function Then(first: Outcome<PyException>, second: Outcome<PyException>): Outcome<PyException> {
    if first.Fail? then first else second
  }

  /** The capability check on a receiving object. */
  function RecvCapability(c: Conn): Outcome<PyException> {
    if c.hasRecv && c.hasPoll then Pass
    else Fail(ValueError("'comm_obj' doesn't have 'recv' or 'poll' function"))
  }

  /** The capability check on a sending object. */
  function SendCapability(c: Conn): Outcome<PyException> {
    if c.hasSend then Pass else Fail(ValueError("'comm_obj' doesn't have 'send' function"))
  }

  /** The duplicate-name check: a name whose current entry is truthy is taken. */
  function NameFree(m: map<string, Conn>, name: string, registry: string): Outcome<PyException> {
    if name in m && m[name].truthy
    then Fail(ValueError("The name '" + name + "' already exists in '" + registry + "'"))
    else Pass
  }

  /** No element occurs twice. */
  predicate Distinct<T(==)>(s: seq<T>) {
    forall i, j :: 0 <= i < j < |s| ==> s[i] != s[j]
  }

  /** The names of a registry in dict order. */
  ghost predicate Enumerates(names: seq<string>, m: map<string, Conn>) {
    Distinct(names) && forall n :: n in m <==> n in names
  }

  /** The order in which a dict lists its keys after `d[name] = ...`. */
  function KeyOrderAfterStore(names: seq<string>, m: map<string, Conn>, name: string): seq<string> {
    if name in m then names else names + [name]
  }

  /**
   * The loop of `recv_all` on the registry's dict and its key order: one
   * receive per name, None for a name with nothing waiting unless the
   * caller waits, in which case the loop blocks there.
   */
  method ReceiveEach(ends: map<string, Conn>, names: seq<string>, toWait: bool)
    returns (g: Gathered, after: map<string, Conn>)
    requires Enumerates(names, ends)
    ensures !g.Failed? && after.Keys == ends.Keys
    ensures g.Blocked? <==> toWait && exists n :: n in ends && ends[n].incoming == []
    ensures g.Objects? ==> g.m == (map n | n in ends :: HeadOrNone(ends[n]))
    ensures g.Objects? ==> after == (map n | n in ends :: ends[n].AfterRecv())
    ensures forall n :: n in after ==> after[n] == ends[n] || after[n] == ends[n].AfterRecv()
  {
    after := ends;
    var objs := map[];
    var i := 0;
    ghost var seen: set<string> := {};
    while i < |names|
      invariant 0 <= i <= |names|
      invariant after.Keys == ends.Keys && objs.Keys == seen
      invariant forall k :: 0 <= k < i ==> names[k] in seen
      invariant forall k :: i <= k < |names| ==> names[k] !in seen
      invariant forall n :: n in seen ==>
        n in ends && objs[n] == HeadOrNone(ends[n]) && after[n] == ends[n].AfterRecv()
      invariant forall n :: n in after && n !in seen ==> after[n] == ends[n]
      invariant toWait ==> forall n :: n in seen ==> ends[n].incoming != []
    {
      var name := names[i];
      var c := after[name];
      if toWait && c.incoming == [] {
        return Blocked, after;
      }
      objs := objs[name := HeadOrNone(c)];
      after := after[name := c.AfterRecv()];
      seen := seen + {name};
      i := i + 1;
    }
    assert forall n :: n in ends ==> n in seen;
    g := Objects(objs);
  }

  /** The position in `names` of the first broken end, or `|names|` when none is broken. */
  function FirstBroken(ends: map<string, Conn>, names: seq<string>): (k: nat)
    requires forall n :: n in names ==> n in ends
    ensures k <= |names|
    ensures forall j :: 0 <= j < k ==> !ends[names[j]].broken
    ensures k < |names| ==> ends[names[k]].broken
    decreases |names|
  {
    if names == [] || ends[names[0]].broken then 0
    else 1 + FirstBroken(ends, names[1..])
  }

  /** The ends after the object has gone through the first `k` names, and through no other end. */
  ghost function PushedThrough(ends: map<string, Conn>, names: seq<string>, k: nat, obj: Value): map<string, Conn>
    requires k <= |names|
  {
    map n | n in ends :: if n in names[..k] then ends[n].Pushed(obj) else ends[n]
  }

  /** Sending through one more name extends the prefix by that name alone. */
  lemma PushedThroughStep(ends: map<string, Conn>, names: seq<string>, i: nat, obj: Value)
    requires Enumerates(names, ends) && i < |names|
    ensures names[i] in ends && PushedThrough(ends, names, i, obj)[names[i]] == ends[names[i]]
    ensures PushedThrough(ends, names, i + 1, obj) == PushedThrough(ends, names, i, obj)[names[i] := ends[names[i]].Pushed(obj)]
  {
    assert names[i] !in names[..i] by {
      forall k | 0 <= k < i
        ensures names[..i][k] != names[i]
      {
        assert names[k] != names[i];
      }
    }
    assert names[..i + 1] == names[..i] + [names[i]];
  }

  /** Where the send loop stands at name `i`: past it when its end is sound, else stopped there. */
  lemma FirstBrokenAt(ends: map<string, Conn>, names: seq<string>, i: nat)
    requires forall n :: n in names ==> n in ends
    requires i < |names| && i <= FirstBroken(ends, names)
    ensures !ends[names[i]].broken ==> i + 1 <= FirstBroken(ends, names)
    ensures ends[names[i]].broken ==> FirstBroken(ends, names) == i
  {
  }

  /** Sent through every name: every end has sent the object, and no end was broken. */
  lemma PushedThroughAll(ends: map<string, Conn>, names: seq<string>, obj: Value)
    requires Enumerates(names, ends) && FirstBroken(ends, names) == |names|
    ensures PushedThrough(ends, names, |names|, obj) == (map n | n in ends :: ends[n].Pushed(obj))
    ensures forall n :: n in ends ==> !ends[n].broken
  {
    assert names[..|names|] == names;
    forall n | n in ends
      ensures !ends[n].broken
    {
      var k :| 0 <= k < |names| && names[k] == n;
    }
  }

  /** With no end broken, the object goes through every end: the partial send is the whole send. */
  lemma SentToEvery(ends: map<string, Conn>, names: seq<string>, obj: Value)
    requires Enumerates(names, ends) && forall n :: n in ends ==> !ends[n].broken
    ensures FirstBroken(ends, names) == |names|
    ensures PushedThrough(ends, names, FirstBroken(ends, names), obj) == (map n | n in ends :: ends[n].Pushed(obj))
  {
    PushedThroughAll(ends, names, obj);
  }

  /**
   * The loop of `send_all`: the object once through every sending object
   * in dict order, stopping at a broken one.
   */
  method SendEach(ends: map<string, Conn>, names: seq<string>, obj: Value)
    returns (o: Outcome<PyException>, after: map<string, Conn>)
    requires Enumerates(names, ends)
    ensures after.Keys == ends.Keys
    ensures o.Pass? <==> forall n :: n in ends ==> !ends[n].broken
    ensures o.Pass? ==> after == (map n | n in ends :: ends[n].Pushed(obj))
    ensures o.Fail? ==> o.error == BrokenPipeError
    ensures after == PushedThrough(ends, names, FirstBroken(ends, names), obj)
    ensures forall n :: n in after ==> after[n] == ends[n] || after[n] == ends[n].Pushed(obj)
  {
    after := ends;
    assert names[..0] == [];
    var i := 0;
    while i < |names|
      invariant 0 <= i <= FirstBroken(ends, names)
      invariant after == PushedThrough(ends, names, i, obj)
    {
      var name := names[i];
      PushedThroughStep(ends, names, i, obj);
      FirstBrokenAt(ends, names, i);
      if after[name].broken {
        return Fail(BrokenPipeError), after;
      }
      after := after[name := after[name].Pushed(obj)];
      i := i + 1;
    }
    PushedThroughAll(ends, names, obj);
    o := Pass;
  }

  /** The position in `names` of the first end whose first object is an MLProcessError, or `|names|` when there is none. */
  function FirstMLError(ends: map<string, Conn>, names: seq<string>): (k: nat)
    requires forall n :: n in names ==> n in ends
    ensures k <= |names|
    ensures forall j :: 0 <= j < k ==> !IsMLProcessError(HeadOrNone(ends[names[j]]))
    ensures k < |names| ==> IsMLProcessError(HeadOrNone(ends[names[k]]))
    decreases |names|
  {
    if names == [] || IsMLProcessError(HeadOrNone(ends[names[0]])) then 0
    else 1 + FirstMLError(ends, names[1..])
  }

  /**
   * The loop of `recv_from_all_ml` stopped at the first error in name
   * order: the error is that end's, every end up to it has been read, and
   * no end after it has.
   */
  ghost predicate StoppedAtFirstError(ends: map<string, Conn>, names: seq<string>, e: PyException, after: map<string, Conn>) {
    (forall n :: n in names ==> n in ends && n in after)
    && var k := FirstMLError(ends, names);
    k < |names| && e == ProcessFailure(HeadOrNone(ends[names[k]]).err)
    && (forall j :: 0 <= j <= k ==> after[names[j]] == ends[names[j]].AfterRecv())
    && (forall j :: k < j < |names| ==> after[names[j]] == ends[names[j]])
  }

  /**
   * The loop of `recv_from_all_ml`: a non-blocking receive per ML name in
   * order; the first MLProcessError is raised.
   */
  method ReceiveEachFromMl(ends: map<string, Conn>, names: seq<string>)
    returns (g: Gathered, after: map<string, Conn>)
    requires Enumerates(names, ends)
    ensures !g.Blocked? && after.Keys == ends.Keys
    ensures g.Objects? <==> forall n :: n in ends ==> !IsMLProcessError(HeadOrNone(ends[n]))
    ensures g.Objects? ==> g.m == (map n | n in ends :: HeadOrNone(ends[n]))
    ensures g.Objects? ==> after == (map n | n in ends :: ends[n].AfterRecv())
    ensures g.Failed? ==> (exists n :: n in ends && IsMLProcessError(HeadOrNone(ends[n]))
                                   && g.e == ProcessFailure(HeadOrNone(ends[n]).err))
    ensures g.Failed? ==> StoppedAtFirstError(ends, names, g.e, after)
    ensures forall n :: n in after ==> after[n] == ends[n] || after[n] == ends[n].AfterRecv()
  {
    after := ends;
    var objs := map[];
    var i := 0;
    ghost var seen: set<string> := {};
    while i < |names|
      invariant ReadPrefix(ends, names, i, seen, objs, after)
    {
      var name := names[i];
      var c := after[name];
      ReadPrefixNext(ends, names, i, seen, objs, after);
      var r := RaiseMLError(HeadOrNone(c));
      if r.Raised? {
        StopsAtFirstError(ends, names, i, seen, objs, after, r.e);
        return Failed(r.e), after[name := c.AfterRecv()];
      }
      ReadPrefixStep(ends, names, i, seen, objs, after);
      after := after[name := c.AfterRecv()];
      objs := objs[name := r.obj];
      seen := seen + {name};
      i := i + 1;
    }
    ReceivedFromAll(ends, names, seen, objs, after);
    g := Objects(objs);
  }

  /**
   * The state of the receive loop after the first `i` names: those names
   * are `seen`, each gave its first object, which is no MLProcessError, and
   * its end has moved on; every other end is untouched.
   */
  ghost predicate ReadPrefix(ends: map<string, Conn>, names: seq<string>, i: nat, seen: set<string>,
                             objs: map<string, Value>, after: map<string, Conn>) {
    i <= |names| && after.Keys == ends.Keys && objs.Keys == seen
    && (forall k :: 0 <= k < i ==> names[k] in seen)
    && (forall k :: i <= k < |names| ==> names[k] !in seen)
    && (forall n :: n in seen ==>
          n in ends && objs[n] == HeadOrNone(ends[n]) && !IsMLProcessError(objs[n]) && after[n] == ends[n].AfterRecv())
    && (forall n :: n in after && n !in seen ==> after[n] == ends[n])
  }

  /** The next name to read still has its end untouched. */
  lemma ReadPrefixNext(ends: map<string, Conn>, names: seq<string>, i: nat, seen: set<string>,
                       objs: map<string, Value>, after: map<string, Conn>)
    requires Enumerates(names, ends) && ReadPrefix(ends, names, i, seen, objs, after) && i < |names|
    ensures names[i] in ends && names[i] !in seen && after[names[i]] == ends[names[i]]
  {
  }

  /** Reading one more end without an error extends the loop state by that name. */
  lemma ReadPrefixStep(ends: map<string, Conn>, names: seq<string>, i: nat, seen: set<string>,
                       objs: map<string, Value>, after: map<string, Conn>)
    requires Enumerates(names, ends) && ReadPrefix(ends, names, i, seen, objs, after) && i < |names|
    requires !IsMLProcessError(HeadOrNone(ends[names[i]]))
    ensures ReadPrefix(ends, names, i + 1, seen + {names[i]}, objs[names[i] := HeadOrNone(ends[names[i]])],
                       after[names[i] := ends[names[i]].AfterRecv()])
  {
    forall k | i + 1 <= k < |names|
      ensures names[k] !in seen + {names[i]}
    {
      assert names[k] != names[i];
    }
  }

  /** A receive loop that raises at position `i` has stopped at the first error in name order. */
  lemma StopsAtFirstError(ends: map<string, Conn>, names: seq<string>, i: nat, seen: set<string>,
                          objs: map<string, Value>, prev: map<string, Conn>, e: PyException)
    requires Enumerates(names, ends) && ReadPrefix(ends, names, i, seen, objs, prev) && i < |names|
    requires IsMLProcessError(HeadOrNone(ends[names[i]])) && e == ProcessFailure(HeadOrNone(ends[names[i]]).err)
    ensures StoppedAtFirstError(ends, names, e, prev[names[i] := ends[names[i]].AfterRecv()])
    ensures exists n :: n in ends && IsMLProcessError(HeadOrNone(ends[n])) && e == ProcessFailure(HeadOrNone(ends[n]).err)
    ensures forall n :: n in prev[names[i] := ends[names[i]].AfterRecv()] ==>
      prev[names[i] := ends[names[i]].AfterRecv()][n] == ends[n] || prev[names[i] := ends[names[i]].AfterRecv()][n] == ends[n].AfterRecv()
  {
    var after := prev[names[i] := ends[names[i]].AfterRecv()];
    var k := FirstMLError(ends, names);
    assert forall j :: 0 <= j < i ==> names[j] in seen && !IsMLProcessError(HeadOrNone(ends[names[j]]));
    assert k == i;
    forall j | 0 <= j <= k
      ensures after[names[j]] == ends[names[j]].AfterRecv()
    {
      if j < k {
        assert names[j] in seen && names[j] != names[i];
      }
    }
    forall j | i < j < |names|
      ensures after[names[j]] == ends[names[j]]
    {
      assert names[j] != names[i] && names[j] !in seen;
    }
    forall n | n in after
      ensures after[n] == ends[n] || after[n] == ends[n].AfterRecv()
    {
      if n != names[i] && n in seen {
        assert prev[n] == ends[n].AfterRecv();
      }
    }
  }

  /** Once every name has been received from without an error, the results are the heads and the ends have moved on. */
  lemma ReceivedFromAll(ends: map<string, Conn>, names: seq<string>, seen: set<string>,
                        objs: map<string, Value>, after: map<string, Conn>)
    requires Enumerates(names, ends) && ReadPrefix(ends, names, |names|, seen, objs, after)
    ensures objs == (map n | n in ends :: HeadOrNone(ends[n]))
    ensures after == (map n | n in ends :: ends[n].AfterRecv())
    ensures forall n :: n in ends ==> !IsMLProcessError(HeadOrNone(ends[n]))
  {
    assert forall n :: n in ends ==> n in seen;
  }

  /** `CommunicationSet`: named receiving and sending objects. */
  class CommunicationSet {
    var recvEnd: map<string, Conn>
    /** The keys of `recvEnd` in insertion order, the order the dict iterates in. */
    var recvNames: seq<string>
    var sendEnd: map<string, Conn>
    var sendNames: seq<string>

    /** The name lists enumerate the dicts, and every stored object passed its capability check. */
    ghost predicate Valid()
      reads this
    {
      Enumerates(recvNames, recvEnd) && Enumerates(sendNames, sendEnd)
      && (forall n :: n in recvEnd ==> recvEnd[n].hasRecv && recvEnd[n].hasPoll)
      && (forall n :: n in sendEnd ==> sendEnd[n].hasSend)
    }

    constructor()
      ensures Valid()
      ensures recvEnd == map[] && recvNames == [] && sendEnd == map[] && sendNames == []
    {
      recvEnd, recvNames := map[], [];
      sendEnd, sendNames := map[], [];
    }

    /** `add_recv_end`: rejects a taken name, then an object without `recv` or `poll`. */
    method AddRecvEnd(name: string, c: Conn) returns (o: Outcome<PyException>)
      requires Valid()
      modifies this
      ensures Valid()
      ensures o == Then(NameFree(old(recvEnd), name, "recv_end"), RecvCapability(c))
      ensures o.Fail? ==> recvEnd == old(recvEnd) && recvNames == old(recvNames)
      ensures o.Pass? ==>
        recvEnd == old(recvEnd)[name := c] && recvNames == KeyOrderAfterStore(old(recvNames), old(recvEnd), name)
      ensures sendEnd == old(sendEnd) && sendNames == old(sendNames)
    {
      o := Then(NameFree(recvEnd, name, "recv_end"), RecvCapability(c));
      if o.Pass? {
        recvNames := KeyOrderAfterStore(recvNames, recvEnd, name);
        recvEnd := recvEnd[name := c];
      }
    }

    /** `add_send_end`: rejects a taken name, then an object without `send`. */
    method AddSendEnd(name: string, c: Conn) returns (o: Outcome<PyException>)
      requires Valid()
      modifies this
      ensures Valid()
      ensures o == Then(NameFree(old(sendEnd), name, "send_end"), SendCapability(c))
      ensures o.Fail? ==> sendEnd == old(sendEnd) && sendNames == old(sendNames)
      ensures o.Pass? ==>
        sendEnd == old(sendEnd)[name := c] && sendNames == KeyOrderAfterStore(old(sendNames), old(sendEnd), name)
      ensures recvEnd == old(recvEnd) && recvNames == old(recvNames)
    {
      o := Then(NameFree(sendEnd, name, "send_end"), SendCapability(c));
      if o.Pass? {
        sendNames := KeyOrderAfterStore(sendNames, sendEnd, name);
        sendEnd := sendEnd[name := c];
      }
    }

    /** `get_recv_end_names`: the registered receiving names, each once. */
    function RecvEndNames(): (names: seq<string>)
      requires Valid()
      reads this
      ensures Distinct(names) && forall n :: n in names <==> n in recvEnd
    {
      recvNames
    }

    /** `get_send_end_names`: the registered sending names, each once. */
    function SendEndNames(): (names: seq<string>)
      requires Valid()
      reads this
      ensures Distinct(names) && forall n :: n in names <==> n in sendEnd
    {
      sendNames
    }

    /** `poll(name)`: whether something waits on that object; an unknown name is a KeyError. */
    method Poll(name: string) returns (r: Result<bool, PyException>)
      ensures name !in recvEnd ==> r == Failure(KeyError(name))
      ensures name in recvEnd ==> r == Success(recvEnd[name].incoming != [])
    {
      if name !in recvEnd {
        return Failure(KeyError(name));
      }
      return Success(recvEnd[name].incoming != []);
    }

    /**
     * `recv(name, to_wait)`: without waiting, None when nothing is there
     * (and `recv` is not called); otherwise the next object.
     */
    method Recv(name: string, toWait: bool) returns (r: Received)
      requires Valid()
      modifies this
      ensures Valid()
      ensures name !in old(recvEnd) ==> r == Raised(KeyError(name)) && recvEnd == old(recvEnd)
      ensures name in old(recvEnd) && old(recvEnd)[name].incoming != [] ==>
        r == Got(old(recvEnd)[name].incoming[0]) && recvEnd == old(recvEnd)[name := old(recvEnd)[name].AfterRecv()]
      ensures name in old(recvEnd) && old(recvEnd)[name].incoming == [] ==>
        r == (if toWait then WouldBlock else Got(NoneV)) && recvEnd == old(recvEnd)
      ensures recvNames == old(recvNames) && sendEnd == old(sendEnd) && sendNames == old(sendNames)
    {
      if name !in recvEnd {
        return Raised(KeyError(name));
      }
      var c := recvEnd[name];
      if !toWait && c.incoming == [] {
        return Got(NoneV);
      }
      if c.incoming == [] {
        return WouldBlock;
      }
      r := Got(c.incoming[0]);
      recvEnd := recvEnd[name := c.AfterRecv()];
    }

    /**
     * `recv_all(to_wait)`: one receive per registered name, in dict order,
     * collected in a dict with exactly those names as keys.
     */
    method RecvAll(toWait: bool) returns (g: Gathered)
      requires Valid()
      modifies this
      ensures Valid()
      ensures !g.Failed?
      ensures g.Blocked? <==> toWait && exists n :: n in old(recvEnd) && old(recvEnd)[n].incoming == []
      ensures g.Objects? ==> g.m == (map n | n in old(recvEnd) :: HeadOrNone(old(recvEnd)[n]))
      ensures g.Objects? ==> recvEnd == (map n | n in old(recvEnd) :: old(recvEnd)[n].AfterRecv())
      ensures recvEnd.Keys == old(recvEnd).Keys
      ensures recvNames == old(recvNames) && sendEnd == old(sendEnd) && sendNames == old(sendNames)
    {
      g, recvEnd := ReceiveEach(recvEnd, recvNames, toWait);
    }

    /** `send(obj, name)`; an unknown name is a KeyError. */
    method Send(obj: Value, name: string) returns (o: Outcome<PyException>)
      requires Valid()
      modifies this
      ensures Valid()
      ensures name !in old(sendEnd) ==> o == Fail(KeyError(name)) && sendEnd == old(sendEnd)
      ensures name in old(sendEnd) && old(sendEnd)[name].broken ==> o == Fail(BrokenPipeError) && sendEnd == old(sendEnd)
      ensures name in old(sendEnd) && !old(sendEnd)[name].broken ==>
        o == Pass && sendEnd == old(sendEnd)[name := old(sendEnd)[name].Pushed(obj)]
      ensures recvEnd == old(recvEnd) && recvNames == old(recvNames) && sendNames == old(sendNames)
    {
      if name !in sendEnd {
        return Fail(KeyError(name));
      }
      if sendEnd[name].broken {
        return Fail(BrokenPipeError);
      }
      sendEnd := sendEnd[name := sendEnd[name].Pushed(obj)];
      o := Pass;
    }

    /**
     * `send_all(obj)`: the same object once through every sending object, in
     * dict order; a broken one stops the loop with BrokenPipeError.
     */
    method SendAll(obj: Value) returns (o: Outcome<PyException>)
      requires Valid()
      modifies this
      ensures Valid()
      ensures o.Pass? <==> forall n :: n in old(sendEnd) ==> !old(sendEnd)[n].broken
      ensures o.Pass? ==> sendEnd == (map n | n in old(sendEnd) :: old(sendEnd)[n].Pushed(obj))
      ensures o.Fail? ==> o.error == BrokenPipeError
      ensures sendEnd.Keys == old(sendEnd).Keys
      ensures forall n :: n in sendEnd ==> sendEnd[n] == old(sendEnd)[n] || sendEnd[n] == old(sendEnd)[n].Pushed(obj)
      ensures recvEnd == old(recvEnd) && recvNames == old(recvNames) && sendNames == old(sendNames)
      ensures sendEnd == PushedThrough(old(sendEnd), old(sendNames), FirstBroken(old(sendEnd), old(sendNames)), obj)
    {
      o, sendEnd := SendEach(sendEnd, sendNames, obj);
    }
  }

  /** `CommunicationHandler`: one receiving and one sending object, each set after a capability check. */
  class CommunicationHandler {
    var recvEnd: Option<Conn>
    var sendEnd: Option<Conn>

    constructor()
      ensures recvEnd == None && sendEnd == None
    {
      recvEnd, sendEnd := None, None;
    }

    /** `set_recv_end`: rejects an object without `recv` or `poll`. */
    method SetRecvEnd(c: Conn) returns (o: Outcome<PyException>)
      modifies this
      ensures o == RecvCapability(c)
      ensures recvEnd == (if o.Pass? then Some(c) else old(recvEnd))
      ensures sendEnd == old(sendEnd)
    {
      o := RecvCapability(c);
      if o.Pass? {
        recvEnd := Some(c);
      }
    }

    /** `set_send_end`: rejects an object without `send`. */
    method SetSendEnd(c: Conn) returns (o: Outcome<PyException>)
      modifies this
      ensures o == SendCapability(c)
      ensures sendEnd == (if o.Pass? then Some(c) else old(sendEnd))
      ensures recvEnd == old(recvEnd)
    {
      o := SendCapability(c);
      if o.Pass? {
        sendEnd := Some(c);
      }
    }

    /** `poll()`; on an unset end the attribute lookup fails. */
    method Poll() returns (r: Result<bool, PyException>)
      ensures recvEnd.None? ==> r == Failure(AttributeError("poll"))
      ensures recvEnd.Some? && !recvEnd.value.hasPoll ==> r == Failure(AttributeError("poll"))
      ensures recvEnd.Some? && recvEnd.value.hasPoll ==> r == Success(recvEnd.value.incoming != [])
    {
      if recvEnd.None? || !recvEnd.value.hasPoll {
        return Failure(AttributeError("poll"));
      }
      return Success(recvEnd.value.incoming != []);
    }

    /** `recv()`: a blocking receive of the next object. */
    method Recv() returns (r: Received)
      modifies this
      ensures old(recvEnd).None? || !old(recvEnd).value.hasRecv ==>
        r == Raised(AttributeError("recv")) && recvEnd == old(recvEnd)
      ensures old(recvEnd).Some? && old(recvEnd).value.hasRecv && old(recvEnd).value.incoming == [] ==>
        r == WouldBlock && recvEnd == old(recvEnd)
      ensures old(recvEnd).Some? && old(recvEnd).value.hasRecv && old(recvEnd).value.incoming != [] ==>
        r == Got(old(recvEnd).value.incoming[0]) && recvEnd == Some(old(recvEnd).value.AfterRecv())
      ensures sendEnd == old(sendEnd)
    {
      if recvEnd.None? || !recvEnd.value.hasRecv {
        return Raised(AttributeError("recv"));
      }
      var c := recvEnd.value;
      if c.incoming == [] {
        return WouldBlock;
      }
      r := Got(c.incoming[0]);
      recvEnd := Some(c.AfterRecv());
    }

    /** `send(obj)`. */
    method Send(obj: Value) returns (o: Outcome<PyException>)
      modifies this
      ensures old(sendEnd).None? || !old(sendEnd).value.hasSend ==>
        o == Fail(AttributeError("send")) && sendEnd == old(sendEnd)
      ensures old(sendEnd).Some? && old(sendEnd).value.hasSend && old(sendEnd).value.broken ==>
        o == Fail(BrokenPipeError) && sendEnd == old(sendEnd)
      ensures old(sendEnd).Some? && old(sendEnd).value.hasSend && !old(sendEnd).value.broken ==>
        o == Pass && sendEnd == Some(old(sendEnd).value.Pushed(obj))
      ensures recvEnd == old(recvEnd)
    {
      if sendEnd.None? || !sendEnd.value.hasSend {
        return Fail(AttributeError("send"));
      }
      if sendEnd.value.broken {
        return Fail(BrokenPipeError);
      }
      sendEnd := Some(sendEnd.value.Pushed(obj));
      o := Pass;
    }
  }

  /** An MLProcessError instance: `isinstance(obj, MLProcessError)`. */
  predicate IsMLProcessError(v: Value) {
    v.ErrorV? && v.err.kind == MLProcess
  }

  /** What `recv_from_ml` makes of a received object: an MLProcessError is raised, anything else returned. */
  function RaiseMLError(v: Value): (r: Received)
    ensures r.Raised? <==> IsMLProcessError(v)
    ensures r.Raised? ==> r.e == ProcessFailure(v.err)
    ensures r.Got? ==> r.obj == v
    ensures !r.WouldBlock?
  {
    if IsMLProcessError(v) then Raised(ProcessFailure(v.err)) else Got(v)
  }

  /** `GameCommManager`: the game process's channels, one pair per ML process. */
  class GameCommManager {
    const commToMl: CommunicationSet

    ghost predicate Valid()
      reads this, commToMl
    {
      commToMl.Valid()
    }

    constructor()
      ensures Valid() && fresh(commToMl)
      ensures commToMl.recvEnd == map[] && commToMl.sendEnd == map[]
    {
      commToMl := new CommunicationSet();
    }

    /**
     * `add_comm_to_ml`: registers the receiving object, then the sending
     * one, under the ML process's name; when the second registration fails
     * the first stays.
     */
    method AddCommToMl(mlName: string, recvEnd: Conn, sendEnd: Conn) returns (o: Outcome<PyException>)
      requires Valid()
      modifies commToMl
      ensures Valid()
      ensures o == Then(Then(NameFree(old(commToMl.recvEnd), mlName, "recv_end"), RecvCapability(recvEnd)),
                        Then(NameFree(old(commToMl.sendEnd), mlName, "send_end"), SendCapability(sendEnd)))
      ensures o.Pass? ==>
        commToMl.recvEnd == old(commToMl.recvEnd)[mlName := recvEnd] && commToMl.sendEnd == old(commToMl.sendEnd)[mlName := sendEnd]
    {
      o := commToMl.AddRecvEnd(mlName, recvEnd);
      if o.Fail? {
        return;
      }
      o := commToMl.AddSendEnd(mlName, sendEnd);
    }

    /** `get_ml_names`. */
    function MLNames(): (names: seq<string>)
      requires Valid()
      reads this, commToMl
      ensures Distinct(names) && forall n :: n in names <==> n in commToMl.recvEnd
    {
      commToMl.RecvEndNames()
    }

    /** `send_to_ml`. */
    method SendToMl(obj: Value, mlName: string) returns (o: Outcome<PyException>)
      requires Valid()
      modifies commToMl
      ensures Valid()
      ensures mlName in old(commToMl.sendEnd) && !old(commToMl.sendEnd)[mlName].broken ==>
        o == Pass && commToMl.sendEnd == old(commToMl.sendEnd)[mlName := old(commToMl.sendEnd)[mlName].Pushed(obj)]
      ensures mlName !in old(commToMl.sendEnd) ==> o == Fail(KeyError(mlName))
      ensures mlName in old(commToMl.sendEnd) && old(commToMl.sendEnd)[mlName].broken ==> o == Fail(BrokenPipeError)
      ensures o.Fail? ==> commToMl.sendEnd == old(commToMl.sendEnd)
      ensures commToMl.recvEnd == old(commToMl.recvEnd) && commToMl.recvNames == old(commToMl.recvNames)
    {
      o := commToMl.Send(obj, mlName);
    }

    /** `send_to_all_ml`. */
    method SendToAllMl(obj: Value) returns (o: Outcome<PyException>)
      requires Valid()
      modifies commToMl
      ensures Valid()
      ensures o.Pass? <==> forall n :: n in old(commToMl.sendEnd) ==> !old(commToMl.sendEnd)[n].broken
      ensures o.Pass? ==> commToMl.sendEnd == (map n | n in old(commToMl.sendEnd) :: old(commToMl.sendEnd)[n].Pushed(obj))
      ensures o.Fail? ==> o.error == BrokenPipeError
      ensures commToMl.recvEnd == old(commToMl.recvEnd) && commToMl.recvNames == old(commToMl.recvNames)
      ensures commToMl.sendNames == old(commToMl.sendNames)
      ensures commToMl.sendEnd == PushedThrough(old(commToMl.sendEnd), old(commToMl.sendNames),
                                                FirstBroken(old(commToMl.sendEnd), old(commToMl.sendNames)), obj)
    {
      o := commToMl.SendAll(obj);
    }

    /**
     * `recv_from_ml`: a non-blocking receive; an MLProcessError is raised,
     * anything else (None included) is returned unchanged.
     */
    method RecvFromMl(mlName: string) returns (r: Received)
      requires Valid()
      modifies commToMl
      ensures Valid()
      ensures mlName !in old(commToMl.recvEnd) ==> r == Raised(KeyError(mlName)) && commToMl.recvEnd == old(commToMl.recvEnd)
      ensures mlName in old(commToMl.recvEnd) ==>
        r == RaiseMLError(HeadOrNone(old(commToMl.recvEnd)[mlName]))
        && commToMl.recvEnd == old(commToMl.recvEnd)[mlName := old(commToMl.recvEnd)[mlName].AfterRecv()]
      ensures commToMl.recvNames == old(commToMl.recvNames)
      ensures commToMl.sendEnd == old(commToMl.sendEnd) && commToMl.sendNames == old(commToMl.sendNames)
    {
      r := commToMl.Recv(mlName, false);
      if r.Got? {
        r := RaiseMLError(r.obj);
      }
    }

    /**
     * `recv_from_all_ml`: `recv_from_ml` for every ML name in order; the
     * first MLProcessError is raised and the objects gathered so far are lost.
     */
    method RecvFromAllMl() returns (g: Gathered)
      requires Valid()
      modifies commToMl
      ensures Valid()
      ensures !g.Blocked?
      ensures g.Objects? <==> forall n :: n in old(commToMl.recvEnd) ==> !IsMLProcessError(HeadOrNone(old(commToMl.recvEnd)[n]))
      ensures g.Objects? ==> g.m == (map n | n in old(commToMl.recvEnd) :: HeadOrNone(old(commToMl.recvEnd)[n]))
      ensures g.Objects? ==> commToMl.recvEnd == (map n | n in old(commToMl.recvEnd) :: old(commToMl.recvEnd)[n].AfterRecv())
      ensures g.Failed? ==> (exists n :: n in old(commToMl.recvEnd) && IsMLProcessError(HeadOrNone(old(commToMl.recvEnd)[n]))
                                     && g.e == ProcessFailure(HeadOrNone(old(commToMl.recvEnd)[n]).err))
      ensures g.Failed? ==> StoppedAtFirstError(old(commToMl.recvEnd), commToMl.recvNames, g.e, commToMl.recvEnd)
      ensures commToMl.recvNames == old(commToMl.recvNames)
      ensures commToMl.sendEnd == old(commToMl.sendEnd) && commToMl.sendNames == old(commToMl.sendNames)
    {
      g, commToMl.recvEnd := ReceiveEachFromMl(commToMl.recvEnd, commToMl.recvNames);
    }
  }

  /** The capacity of the ML process's object queue (`Queue(15)`). */
  const QUEUE_CAPACITY := 15

  /** The last `n` elements of `s`, or all of them. */
  function LastN<T>(s: seq<T>, n: nat): (r: seq<T>)
    ensures |r| <= n && |r| <= |s|
    ensures |s| <= n ==> r == s
  {
    if |s| <= n then s else s[|s| - n..]
  }

  /** Keeping the last `n` of a stream step by step keeps the last `n` of the whole stream. */
  lemma {:induction false} LastNAppend<T>(s: seq<T>, x: T, n: nat)
    requires n > 0
    ensures LastN(LastN(s, n) + [x], n) == LastN(s + [x], n)
  {
    var t := LastN(s, n);
    if |s| <= n {
      assert t == s;
    } else {
      assert |t| == n;
      var u := t + [x];
      assert LastN(u, n) == u[1..];
      assert (s + [x])[|s| + 1 - n..] == s[|s| - n + 1..] + [x];
      assert u[1..] == s[|s| - n + 1..] + [x];
    }
  }

  /** The reader's drop-oldest rule: a full queue loses its first element. */
  function MakeRoom(q: seq<Value>): (r: seq<Value>)
    requires |q| <= QUEUE_CAPACITY
    ensures |r| < QUEUE_CAPACITY
  {
    if |q| == QUEUE_CAPACITY then q[1..] else q
  }

  /** Dropping the oldest before a put is the same as keeping the last 15 after it. */
  lemma MakeRoomThenPut(q: seq<Value>, x: Value)
    requires |q| <= QUEUE_CAPACITY
    ensures MakeRoom(q) + [x] == LastN(q + [x], QUEUE_CAPACITY)
  {
    if |q| == QUEUE_CAPACITY {
      assert (q + [x])[1..] == q[1..] + [x];
    }
  }

  /** One round of the reader keeps the queue equal to the last 15 objects received. */
  lemma ReaderPut(q0: seq<Value>, xs: seq<Value>, i: nat)
    requires i < |xs|
    ensures MakeRoom(LastN(q0 + xs[..i], QUEUE_CAPACITY)) + [xs[i]] == LastN(q0 + xs[..i + 1], QUEUE_CAPACITY)
  {
    MakeRoomThenPut(LastN(q0 + xs[..i], QUEUE_CAPACITY), xs[i]);
    LastNAppend(q0 + xs[..i], xs[i], QUEUE_CAPACITY);
    assert xs[..i + 1] == xs[..i] + [xs[i]];
    assert q0 + xs[..i + 1] == (q0 + xs[..i]) + [xs[i]];
  }

  /** The index of the first occurrence of `v` in `xs`, or `|xs|`. */
  function FirstIndex(xs: seq<Value>, v: Value): (k: nat)
    ensures k <= |xs|
    ensures k < |xs| ==> xs[k] == v
    ensures v !in xs[..k]
    ensures k == |xs| <==> v !in xs
  {
    if xs == [] then 0
    else if xs[0] == v then 0
    else
      var k := 1 + FirstIndex(xs[1..], v);
      assert xs[..k] == [xs[0]] + xs[1..][..k - 1];
      assert xs == xs[..k] + xs[k..];
      k
  }

  /** Below the first occurrence of `v`, an element is `v` exactly at that index. */
  lemma FirstIndexAt(xs: seq<Value>, v: Value, i: nat)
    requires i <= FirstIndex(xs, v) && i < |xs|
    ensures xs[i] == v <==> i == FirstIndex(xs, v)
  {
    if i < FirstIndex(xs, v) {
      assert xs[..FirstIndex(xs, v)][i] == xs[i];
    }
  }

  /** The index of the first None in `xs`, or `|xs|`. */
  function FirstNone(xs: seq<Value>): nat {
    FirstIndex(xs, NoneV)
  }

  /** Why the reader thread stopped. */
  datatype ReaderStop = StoppedOnNone | WaitingForGame | Crashed(e: PyException)

  /**
   * Where the reader thread is when it stops, having started from queue
   * `q0` and channel `c`: after the first None it has taken everything up
   * to that None and the queue holds the last 15 of them; with no None
   * waiting it has taken everything and made room for one more object.
   */
  ghost predicate ReaderStopped(q0: seq<Value>, c: Conn, q: seq<Value>, after: Conn, stop: ReaderStop) {
    var k := FirstNone(c.incoming);
    if k < |c.incoming| then
      stop == StoppedOnNone && q == LastN(q0 + c.incoming[..k + 1], QUEUE_CAPACITY)
      && after == c.(incoming := c.incoming[k + 1..])
    else
      stop == WaitingForGame && q == MakeRoom(LastN(q0 + c.incoming, QUEUE_CAPACITY))
      && after == c.(incoming := [])
  }

  /**
   * The loop of `_keep_recv_obj_from_game` on a queue and a channel:
   * each round drops the oldest object from a full queue, receives one
   * object and puts it; the loop ends right after a None.
   */
  method ReadUntilNone(q0: seq<Value>, c: Conn) returns (q: seq<Value>, stopped: (Conn, ReaderStop))
    requires |q0| <= QUEUE_CAPACITY
    ensures |q| <= QUEUE_CAPACITY
    ensures ReaderStopped(q0, c, q, stopped.0, stopped.1)
  {
    ghost var xs := c.incoming;
    var rest := c.incoming;
    q := q0;
    ghost var i := 0;
    while true
      invariant 0 <= i <= FirstNone(xs)
      invariant q == LastN(q0 + xs[..i], QUEUE_CAPACITY)
      invariant rest == xs[i..]
      decreases |rest|
    {
      q := MakeRoom(q);
      if rest == [] {
        assert i == |xs| == FirstNone(xs);
        assert xs[..i] == xs;
        return q, (c.(incoming := rest), WaitingForGame);
      }
      var obj := rest[0];
      assert i < |xs| && obj == xs[i];
      ReaderPut(q0, xs, i);
      FirstIndexAt(xs, NoneV, i);
      rest := rest[1..];
      q := q + [obj];
      i := i + 1;
      if obj == NoneV {
        assert i - 1 == FirstNone(xs);
        return q, (c.(incoming := rest), StoppedOnNone);
      }
    }
  }

  /** `MLCommManager`: the ML process's channel to the game and its object queue. */
  class MLCommManager {
    const mlName: string
    const toGame: CommunicationHandler
    /** Whether `start_recv_obj_thread` has created the queue. */
    var started: bool
    /** `_obj_queue`, oldest first. */
    var queue: seq<Value>
    /** The lines printed by `send_to_game`. */
    var printed: seq<string>

    ghost predicate Valid()
      reads this
    {
      |queue| <= QUEUE_CAPACITY
    }

    constructor(name: string)
      ensures Valid() && mlName == name && fresh(toGame)
      ensures toGame.recvEnd == None && toGame.sendEnd == None
      ensures !started && queue == [] && printed == []
    {
      mlName := name;
      toGame := new CommunicationHandler();
      started, queue, printed := false, [], [];
    }

    /** `set_comm_to_game`: the receiving object is checked and set first. */
    method SetCommToGame(recvEnd: Conn, sendEnd: Conn) returns (o: Outcome<PyException>)
      modifies toGame
      ensures o == Then(RecvCapability(recvEnd), SendCapability(sendEnd))
      ensures toGame.recvEnd == (if RecvCapability(recvEnd).Pass? then Some(recvEnd) else old(toGame.recvEnd))
      ensures toGame.sendEnd == (if o.Pass? then Some(sendEnd) else old(toGame.sendEnd))
    {
      o := toGame.SetRecvEnd(recvEnd);
      if o.Fail? {
        return;
      }
      o := toGame.SetSendEnd(sendEnd);
    }

    /** `start_recv_obj_thread`: a fresh empty queue (the thread itself is `KeepRecvObjFromGame`). */
    method StartRecvObjThread()
      modifies this
      ensures Valid() && started && queue == [] && printed == old(printed)
    {
      started, queue := true, [];
    }

    /**
     * `_keep_recv_obj_from_game`, run until it stops: each round drops the
     * oldest object from a full queue, receives one object and puts it, and
     * the loop ends right after a None. The queue then holds the last 15
     * objects received, oldest first. With nothing more to receive the
     * thread waits, after having made room.
     */
    method KeepRecvObjFromGame() returns (stop: ReaderStop)
      requires Valid() && started
      modifies this, toGame
      ensures Valid() && started && printed == old(printed)
      ensures toGame.sendEnd == old(toGame.sendEnd)
      ensures old(toGame.recvEnd).None? || !old(toGame.recvEnd).value.hasRecv ==>
        stop == Crashed(AttributeError("recv")) && queue == MakeRoom(old(queue)) && toGame.recvEnd == old(toGame.recvEnd)
      ensures old(toGame.recvEnd).Some? && old(toGame.recvEnd).value.hasRecv ==>
        toGame.recvEnd.Some? && ReaderStopped(old(queue), old(toGame.recvEnd).value, queue, toGame.recvEnd.value, stop)
    {
      if toGame.recvEnd.None? || !toGame.recvEnd.value.hasRecv {
        queue := MakeRoom(queue);
        var r := toGame.Recv();
        return Crashed(r.e);
      }
      var stopped;
      queue, stopped := ReadUntilNone(queue, toGame.recvEnd.value);
      toGame.recvEnd := Some(stopped.0);
      stop := stopped.1;
    }

    /** `recv_from_game`: the oldest queued object; waits while the queue is empty. */
    method RecvFromGame() returns (r: Received)
      requires Valid()
      modifies this
      ensures Valid() && started == old(started) && printed == old(printed)
      ensures !started ==> r == Raised(AttributeError("_obj_queue")) && queue == old(queue)
      ensures started && old(queue) == [] ==> r == WouldBlock && queue == old(queue)
      ensures started && old(queue) != [] ==> r == Got(old(queue)[0]) && queue == old(queue)[1..]
    {
      if !started {
        return Raised(AttributeError("_obj_queue"));
      }
      if queue == [] {
        return WouldBlock;
      }
      r := Got(queue[0]);
      queue := queue[1..];
    }

    /** `send_to_game`: a BrokenPipeError is reported on the output and swallowed. */
    method SendToGame(obj: Value) returns (o: Outcome<PyException>)
      modifies this, toGame
      ensures toGame.recvEnd == old(toGame.recvEnd)
      ensures started == old(started) && queue == old(queue)
      ensures old(toGame.sendEnd).Some? && old(toGame.sendEnd).value.hasSend && old(toGame.sendEnd).value.broken ==>
        o == Pass && toGame.sendEnd == old(toGame.sendEnd)
        && printed == old(printed) + ["Process '" + mlName + "': The connection to the game process is closed."]
      ensures old(toGame.sendEnd).Some? && old(toGame.sendEnd).value.hasSend && !old(toGame.sendEnd).value.broken ==>
        o == Pass && toGame.sendEnd == Some(old(toGame.sendEnd).value.Pushed(obj)) && printed == old(printed)
      ensures old(toGame.sendEnd).None? || !old(toGame.sendEnd).value.hasSend ==>
        o == Fail(AttributeError("send")) && toGame.sendEnd == old(toGame.sendEnd) && printed == old(printed)
    {
      o := toGame.Send(obj);
      if o == Fail(BrokenPipeError) {
        printed := printed + ["Process '" + mlName + "': The connection to the game process is closed."];
        o := Pass;
      }
    }
  }
}
