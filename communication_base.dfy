/**
 * mlgame/communication/base.py: a second copy of `CommunicationSet` that
 * differs from the one in mlgame/communication.py only in `recv_all`, a
 * `CommunicationHandler` whose ends are plain attributes, and the six
 * module-level delegate slots the game and ML helpers call through.
 */
module CommunicationBase {
  import opened Wrappers
  import opened Exceptions
  import opened PyValue
  import opened Communication
  import opened Delegate

  /**
   * `recv_all` as written: the loop stores into the undefined name `obj`.
   * The receive on the right-hand side runs before the store fails, so the
   * first registered end loses one object and NameError follows; only an
   * empty registry gives `{}`.
   */
  method RecvAllAsWritten(cs: CommunicationSet, toWait: bool) returns (g: Gathered)
    requires cs.Valid()
    modifies cs
    ensures cs.Valid()
    ensures old(cs.recvNames) == [] ==> g == Objects(map[]) && cs.recvEnd == old(cs.recvEnd)
    ensures old(cs.recvNames) != [] ==>
      var n := old(cs.recvNames)[0];
      if toWait && old(cs.recvEnd)[n].incoming == [] then g == Blocked && cs.recvEnd == old(cs.recvEnd)
      else g == Failed(NameError("obj")) && cs.recvEnd == old(cs.recvEnd)[n := old(cs.recvEnd)[n].AfterRecv()]
    ensures cs.recvNames == old(cs.recvNames) && cs.sendEnd == old(cs.sendEnd) && cs.sendNames == old(cs.sendNames)
  {
    if cs.recvNames == [] {
      return Objects(map[]);
    }
    var r := cs.Recv(cs.recvNames[0], toWait);
    if r.WouldBlock? {
      return Blocked;
    }
    return Failed(NameError("obj"));
  }

  /**
   * One receiving end holding one object: the loop as written raises
   * NameError where the intended loop returns the object under its name.
   */
  method RecvAllCounterexample() returns (asWritten: Gathered, intended: Gathered)
    ensures asWritten == Failed(NameError("obj"))
    ensures intended == Objects(map["ml" := IntV(1)])
  {
    var a := new CommunicationSet();
    var added := a.AddRecvEnd("ml", PipeEnd([IntV(1)]));
    asWritten := RecvAllAsWritten(a, false);
    var b := new CommunicationSet();
    added := b.AddRecvEnd("ml", PipeEnd([IntV(1)]));
    intended := b.RecvAll(false);
    assert intended.m == map["ml" := IntV(1)];
  }

  /**
   * Setting base.py's `recv_end` and `send_end` attributes: whatever is
   * assigned is stored, with no capability check.
   */
  method AssignEnds(h: CommunicationHandler, recvEnd: Option<Conn>, sendEnd: Option<Conn>)
    modifies h
    ensures h.recvEnd == recvEnd && h.sendEnd == sendEnd
  {
    h.recvEnd := recvEnd;
    h.sendEnd := sendEnd;
  }

  /** The module-level handler slots, each a fresh, unset delegate. */
  class Slots {
    const sendToMl: FunctionDelegate<(Value, string), Outcome<PyException>>
    const sendToAllMl: FunctionDelegate<Value, Outcome<PyException>>
    const recvFromMl: FunctionDelegate<(string, bool), Received>
    const recvFromAllMl: FunctionDelegate<bool, Gathered>
    const sendToGame: FunctionDelegate<Value, Outcome<PyException>>
    const recvFromGame: FunctionDelegate<(), Received>

    constructor()
      ensures fresh(sendToMl) && fresh(sendToAllMl) && fresh(recvFromMl)
      ensures fresh(recvFromAllMl) && fresh(sendToGame) && fresh(recvFromGame)
      ensures sendToMl.target == None && sendToAllMl.target == None && recvFromMl.target == None
      ensures recvFromAllMl.target == None && sendToGame.target == None && recvFromGame.target == None
    {
      sendToMl := new FunctionDelegate();
      sendToAllMl := new FunctionDelegate();
      recvFromMl := new FunctionDelegate();
      recvFromAllMl := new FunctionDelegate();
      sendToGame := new FunctionDelegate();
      recvFromGame := new FunctionDelegate();
    }
  }
}
