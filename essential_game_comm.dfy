/**
 * essential/communication/game.py: the game side's `CommandReceiver`,
 * which checks a command received from an ML process against the expected
 * class and the allowed values of its members, and falls back to a default
 * command.
 *
 * The receives it calls come from essential/communication/base.py, which is
 * not part of this model: the object (or dict of objects) they return is a
 * parameter here. The file's `wait_ml_ready`/`wait_all_ml_ready` are the
 * same loops as mlgame/communication/game.py's, modelled in GameComm.
 */
module EssentialGameComm {
  import opened PyValue

  /**
   * A `CommandReceiver`: the class commands must be instances of, for each
   * checked member the values it may take, and the command used instead of
   * an invalid one.
   */
  datatype CommandReceiver = CommandReceiver(cmdClass: string, validMembers: map<string, seq<Value>>, defaultCmd: Value)

  /** The commands `_is_cmd_valid` accepts: instances of the class whose every checked member is present and allowed. */
  predicate Accepts(rcv: CommandReceiver, cmd: Value) {
    IsInstance(cmd, rcv.cmdClass)
    && forall name :: name in rcv.validMembers ==> name in cmd.attrs && cmd.attrs[name] in rcv.validMembers[name]
  }

  /**
   * `_is_cmd_valid`: a non-instance fails at once; otherwise the checked
   * members are visited one by one and the first one missing (the caught
   * KeyError) or holding a value outside its list fails the command.
   */
  method IsCmdValid(rcv: CommandReceiver, cmd: Value) returns (valid: bool)
    ensures valid <==> Accepts(rcv, cmd)
  {
    if !IsInstance(cmd, rcv.cmdClass) {
      return false;
    }
    var unchecked := rcv.validMembers.Keys;
    while unchecked != {}
      invariant unchecked <= rcv.validMembers.Keys
      invariant forall name :: name in rcv.validMembers && name !in unchecked ==>
        name in cmd.attrs && cmd.attrs[name] in rcv.validMembers[name]
      decreases unchecked
    {
      var name :| name in unchecked;
      if name !in cmd.attrs || cmd.attrs[name] !in rcv.validMembers[name] {
        return false;
      }
      unchecked := unchecked - {name};
    }
    return true;
  }

  /** `recv`: the received object when it is a valid command, else the default; nothing received (None) gives the default. */
  method Recv(rcv: CommandReceiver, received: Value) returns (cmd: Value)
    ensures Accepts(rcv, received) ==> cmd == received
    ensures !Accepts(rcv, received) ==> cmd == rcv.defaultCmd
    ensures received == NoneV ==> cmd == rcv.defaultCmd
  {
    var valid := IsCmdValid(rcv, received);
    if valid {
      return received;
    }
    return rcv.defaultCmd;
  }

  /** What `recv_all` makes of the received dict: every invalid command replaced by the default, under the same name. */
  function Sanitized(rcv: CommandReceiver, received: map<string, Value>): map<string, Value> {
    map name | name in received :: if Accepts(rcv, received[name]) then received[name] else rcv.defaultCmd
  }

  /**
   * `recv_all`: the dict from `recv_from_all_ml` rewritten in place, one
   * entry at a time; the names stay, valid commands stay, and each invalid
   * one becomes the default.
   */
  method RecvAll(rcv: CommandReceiver, received: map<string, Value>) returns (commands: map<string, Value>)
    ensures commands.Keys == received.Keys
    ensures forall name :: name in received && Accepts(rcv, received[name]) ==> commands[name] == received[name]
    ensures forall name :: name in received && !Accepts(rcv, received[name]) ==> commands[name] == rcv.defaultCmd
    ensures commands == Sanitized(rcv, received)
  {
    commands := received;
    var unvisited := received.Keys;
    while unvisited != {}
      invariant unvisited <= received.Keys && commands.Keys == received.Keys
      invariant forall name :: name in unvisited ==> commands[name] == received[name]
      invariant forall name :: name in received && name !in unvisited ==> commands[name] == Sanitized(rcv, received)[name]
      decreases unvisited
    {
      var name :| name in unvisited;
      var valid := IsCmdValid(rcv, commands[name]);
      if !valid {
        commands := commands[name := rcv.defaultCmd];
      }
      unvisited := unvisited - {name};
    }
  }

  /** Every command `recv_all` hands over is valid or the default one. */
  lemma SanitizedAccepted(rcv: CommandReceiver, received: map<string, Value>)
    ensures forall name :: name in Sanitized(rcv, received) ==>
      Accepts(rcv, Sanitized(rcv, received)[name]) || Sanitized(rcv, received)[name] == rcv.defaultCmd
  {
  }

  /** Checking the commands a second time changes nothing, whether or not the default is itself valid. */
  lemma SanitizedIdempotent(rcv: CommandReceiver, received: map<string, Value>)
    ensures Sanitized(rcv, Sanitized(rcv, received)) == Sanitized(rcv, received)
  {
    var once := Sanitized(rcv, received);
    forall name | name in once
      ensures Sanitized(rcv, once)[name] == once[name]
    {
    }
  }
}
