/** The exception taxonomy of pi_control_hub_driver_api/exceptions.py.
    An exception is a value: which class it is, the message its constructor
    computed once, and the optional cause it keeps. */
module Exceptions {
  import opened Wrappers
  import opened Text
  import opened Commands
  import opened DeviceInfos

  /** The exception classes of the taxonomy. `DeviceNotFound` is raised only
      by the older revision in pi_control_hub_driver_api/__init__.py. */
  datatype ExceptionKind = DeviceDriverError | DeviceNotFound | CommandNotFound | DeviceCommandError

  /** What an exception may wrap: another driver exception, or any other
      exception, kept as its description. */
  datatype Cause = DriverCause(inner: DeviceDriverException) | ForeignCause(description: string)

  datatype DeviceDriverException = DeviceDriverException(kind: ExceptionKind, message: string, cause: Option<Cause>)

  /** `str(e)`. */
  function Str(e: DeviceDriverException): string {
    e.message
  }

  /** `DeviceDriverException(message, cause)`: `str` of it is the message,
      and the cause is kept unchanged. */
  function NewDeviceDriverException(message: string, cause: Option<Cause>): (e: DeviceDriverException)
    ensures e.kind == DeviceDriverError
    ensures Str(e) == message && e.cause == cause
  {
    DeviceDriverException(DeviceDriverError, message, cause)
  }

  /** The driver's name and device id as `CommandNotFoundException` reads them. */
  function CommandNotFoundMessage(driver: DeviceInfo, commandId: int): string {
    "The device '" + driver.name + "' (id = " + driver.deviceId + ") has no command with id '"
      + IntToString(commandId) + "'"
  }

  /** Reads the command id back out of a command-not-found message about `driver`. */
  function CommandIdOf(message: string, driver: DeviceInfo): Option<int> {
    match StripAffixes(message, "The device '" + driver.name + "' (id = " + driver.deviceId + ") has no command with id '", "'")
    case None => None
    case Some(numeral) => ParseInt(numeral)
  }

  /** `CommandNotFoundException(device_driver, command_id)`: its message names
      the command id in a way that reads back, and it has no cause. */
  function CommandNotFoundException(driver: DeviceInfo, commandId: int): (e: DeviceDriverException)
    ensures e.kind == CommandNotFound && e.cause == None
    ensures CommandIdOf(Str(e), driver) == Some(commandId)
    ensures Str(e) == CommandNotFoundMessage(driver, commandId)
  {
    var prefix := "The device '" + driver.name + "' (id = " + driver.deviceId + ") has no command with id '";
    assert CommandNotFoundMessage(driver, commandId) == prefix + IntToString(commandId) + "'";
    StripAffixesOfConcat(prefix, IntToString(commandId), "'");
    ParseIntToString(commandId);
    DeviceDriverException(CommandNotFound, CommandNotFoundMessage(driver, commandId), None)
  }

  /** The message names the driver's name, then its device id, then the
      command id. */
  lemma CommandNotFoundMentionsInOrder(driver: DeviceInfo, commandId: int)
    ensures var m := CommandNotFoundMessage(driver, commandId);
      exists i, j, k ::
        OccursAt(m, driver.name, i) && OccursAt(m, driver.deviceId, j) && OccursAt(m, IntToString(commandId), k) &&
        i + |driver.name| < j && j + |driver.deviceId| < k
  {
    var m := CommandNotFoundMessage(driver, commandId);
    var a := "The device '";
    var b := "' (id = ";
    var c := ") has no command with id '";
    var i := |a|;
    var j := i + |driver.name| + |b|;
    var k := j + |driver.deviceId| + |c|;
    assert m == a + driver.name + b + driver.deviceId + c + IntToString(commandId) + "'";
    assert OccursAt(m, driver.name, i);
    assert OccursAt(m, driver.deviceId, j);
    assert OccursAt(m, IntToString(commandId), k);
  }

  /** What both forms of the command-execution message start with. */
  function ExecutionErrorPrefix(command: DeviceCommand): string {
    "Error while executing the command '" + command.title + "' (id = " + IntToString(command.id) + ")"
  }

  /** The message `DeviceCommandException(command, device_driver)` computes;
      `driver` is `None` when no driver is passed (a driver object is always
      truthy, so only its absence selects the short form). */
  function DeviceCommandMessage(command: DeviceCommand, driver: Option<DeviceInfo>): string {
    if driver.Some? then
      "Error while executing the command '" + command.title + "' (id = " + IntToString(command.id)
        + ") for device '" + driver.value.name + "' (id = " + driver.value.deviceId + ")."
    else
      "Error while executing the command '" + command.title + "' (id = " + IntToString(command.id) + ")."
  }

  function DeviceCommandException(command: DeviceCommand, driver: Option<DeviceInfo>): (e: DeviceDriverException)
    ensures e.kind == DeviceCommandError && e.cause == None
    ensures Str(e) == DeviceCommandMessage(command, driver)
  {
    DeviceDriverException(DeviceCommandError, DeviceCommandMessage(command, driver), None)
  }

  /** Without a driver the message is the shared prefix and a full stop; with
      one it is that message with its full stop replaced by the driver's
      name and device id. */
  lemma DeviceCommandMessageExtendsPlain(command: DeviceCommand, driver: DeviceInfo)
    ensures DeviceCommandMessage(command, None) == ExecutionErrorPrefix(command) + "."
    ensures var plain := DeviceCommandMessage(command, None);
      DeviceCommandMessage(command, Some(driver)) ==
        plain[..|plain| - 1] + " for device '" + driver.name + "' (id = " + driver.deviceId + ")."
  {
    var plain := DeviceCommandMessage(command, None);
    assert plain[..|plain| - 1] == ExecutionErrorPrefix(command);
  }

  /** With a driver, the message names the command's title, its id, the
      driver's name and the driver's device id, in that order. */
  lemma DeviceCommandMentionsInOrder(command: DeviceCommand, driver: DeviceInfo)
    ensures var m := DeviceCommandMessage(command, Some(driver));
      exists i, j, k, l ::
        OccursAt(m, command.title, i) && OccursAt(m, IntToString(command.id), j) &&
        OccursAt(m, driver.name, k) && OccursAt(m, driver.deviceId, l) &&
        i + |command.title| < j && j + |IntToString(command.id)| < k && k + |driver.name| < l
  {
    var m := DeviceCommandMessage(command, Some(driver));
    var a := "Error while executing the command '";
    var b := "' (id = ";
    var c := ") for device '";
    var d := "' (id = ";
    var n := IntToString(command.id);
    var i := |a|;
    var j := i + |command.title| + |b|;
    var k := j + |n| + |c|;
    var l := k + |driver.name| + |d|;
    assert m == a + command.title + b + n + c + driver.name + d + driver.deviceId + ").";
    assert OccursAt(m, command.title, i);
    assert OccursAt(m, n, j);
    assert OccursAt(m, driver.name, k);
    assert OccursAt(m, driver.deviceId, l);
  }
}
