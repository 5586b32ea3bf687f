/** `DeviceDriver.get_command` as pi_control_hub_driver_api/device_driver.py
    has it: the return-`None` revision of the lookup, written over the list
    that the abstract `get_commands` returned. The lookup only reads that
    list and the driver has no fields it could change, so it is a function.

    As written, the lookup tests `result.count() > 0`; `list.count` needs an
    argument, so that call raises `TypeError` on every input.
    `GetCommandAsWritten` keeps that behaviour; `GetCommand` models the
    evident intent, "the filtered list is non-empty". */
module Drivers {
  import opened Wrappers
  import opened Commands
  import opened Lookup

  /** The first command whose id is `cmdId`, or `None` when there is none. */
  function GetCommand(commands: seq<DeviceCommand>, cmdId: int): (r: Option<DeviceCommand>)
    ensures r.Some? <==> HasCommandWithId(commands, cmdId)
    ensures r.None? <==> forall c :: c in commands ==> c.id != cmdId
    ensures r.Some? ==> r.value.id == cmdId && r.value in commands
    ensures r.Some? ==> exists i :: IsFirstWithId(commands, cmdId, i) && commands[i] == r.value
  {
    var result := Filter(HasId(cmdId), commands);
    FilterByIdHead(commands, cmdId);
    if |result| > 0 then Some(result[0]) else None
  }

  /** The lookup exactly as written: the filter succeeds, then the argument-less
      `result.count()` raises, so no call ever returns. */
  function GetCommandAsWritten(commands: seq<DeviceCommand>, cmdId: int): (r: Result<Option<DeviceCommand>, PythonError>)
    ensures r.Failure? && r.error.TypeError?
  {
    var result := Filter(HasId(cmdId), commands);
    Failure(CountWithoutArgument(result))
  }

  /** The input that shows the defect: a list holding the requested command,
      which the intended lookup finds and the written one does not. */
  lemma AsWrittenMissesPresentCommand()
    ensures GetCommand([DeviceCommand(1, "Power", [])], 1) == Some(DeviceCommand(1, "Power", []))
    ensures GetCommandAsWritten([DeviceCommand(1, "Power", [])], 1).Failure?
  {
    var power := DeviceCommand(1, "Power", []);
    assert IsFirstWithId([power], 1, 0);
  }

  /** When ids are unique within the list, as commands of one driver are,
      looking a command up by its own id returns that very command. */
  lemma GetCommandFindsMember(commands: seq<DeviceCommand>, c: DeviceCommand)
    requires forall i, j :: 0 <= i < |commands| && 0 <= j < |commands| && commands[i].id == commands[j].id ==> i == j
    requires c in commands
    ensures GetCommand(commands, c.id) == Some(c)
  {
    var k :| 0 <= k < |commands| && commands[k] == c;
    var r := GetCommand(commands, c.id);
    assert HasCommandWithId(commands, c.id);
    var i :| IsFirstWithId(commands, c.id, i) && commands[i] == r.value;
    assert i == k;
  }
}
