/** The older, single-file revision of the API in
    pi_control_hub_driver_api/__init__.py: the driver's identity delegated
    to its `DeviceInfo`, the raising revision of `get_command`, the
    exception constructors of that revision, and the process-wide config
    path. The command record, the device info record and the authentication
    method behave identically to those of the split files (in Python they
    are distinct classes); the model uses one definition for both
    revisions. */
module HubApi {
  import opened Wrappers
  import opened Text
  import opened Commands
  import opened DeviceInfos
  import opened Lookup
  import Drivers
  import Exceptions

  /** A driver bound to the `DeviceInfo` it was constructed with. */
  datatype DeviceDriver = DeviceDriver(deviceInfo: DeviceInfo)
  {
    function Name(): string {
      deviceInfo.name
    }

    function DeviceId(): string {
      deviceInfo.deviceId
    }
  }

  /** A driver reports the name and device id of the `DeviceInfo` it was built with. */
  lemma DriverIdentity(info: DeviceInfo)
    ensures DeviceDriver(info).Name() == info.name
    ensures DeviceDriver(info).DeviceId() == info.deviceId
  {
  }

  // Exception constructors of this revision; the base exception is the one
  // of the split revision.

  function DeviceNotFoundMessage(deviceId: string): string {
    "Device with ID '" + deviceId + "' not found."
  }

  /** Reads the device id back out of a device-not-found message. */
  function DeviceIdOf(message: string): Option<string> {
    StripAffixes(message, "Device with ID '", "' not found.")
  }

  /** `DeviceNotFoundException(device_id)`: its message names the id so that it reads back. */
  function DeviceNotFoundException(deviceId: string): (e: Exceptions.DeviceDriverException)
    ensures e.kind == Exceptions.DeviceNotFound && e.cause == None
    ensures DeviceIdOf(Exceptions.Str(e)) == Some(deviceId)
  {
    StripAffixesOfConcat("Device with ID '", deviceId, "' not found.");
    Exceptions.DeviceDriverException(Exceptions.DeviceNotFound, DeviceNotFoundMessage(deviceId), None)
  }

  /** Only device-not-found messages read back, and the id read back is the
      one the message was built from. */
  lemma DeviceNotFoundMessageParses(message: string, deviceId: string)
    ensures DeviceIdOf(message) == Some(deviceId) <==> message == DeviceNotFoundMessage(deviceId)
  {
    if message == DeviceNotFoundMessage(deviceId) {
      StripAffixesOfConcat("Device with ID '", deviceId, "' not found.");
    }
  }

  function CommandNotFoundMessage(driverName: string, commandId: int): string {
    "The device '" + driverName + "' has no command with id '" + IntToString(commandId) + "'"
  }

  /** Reads the command id back out of a command-not-found message about the named driver. */
  function CommandIdOf(message: string, driverName: string): Option<int> {
    match StripAffixes(message, "The device '" + driverName + "' has no command with id '", "'")
    case None => None
    case Some(numeral) => ParseInt(numeral)
  }

  /** `CommandNotFoundException(device_driver_name, command_id)`: the message
      names the command id in a way that reads back. */
  function CommandNotFoundException(driverName: string, commandId: int): (e: Exceptions.DeviceDriverException)
    ensures e.kind == Exceptions.CommandNotFound && e.cause == None
    ensures CommandIdOf(Exceptions.Str(e), driverName) == Some(commandId)
    ensures Exceptions.Str(e) == CommandNotFoundMessage(driverName, commandId)
  {
    var prefix := "The device '" + driverName + "' has no command with id '";
    assert CommandNotFoundMessage(driverName, commandId) == prefix + IntToString(commandId) + "'";
    StripAffixesOfConcat(prefix, IntToString(commandId), "'");
    ParseIntToString(commandId);
    Exceptions.DeviceDriverException(Exceptions.CommandNotFound, CommandNotFoundMessage(driverName, commandId), None)
  }

  /** Different command ids give different messages for the same driver. */
  lemma CommandNotFoundMessageInjective(driverName: string, a: int, b: int)
    requires CommandNotFoundMessage(driverName, a) == CommandNotFoundMessage(driverName, b)
    ensures a == b
  {
    var ea := CommandNotFoundException(driverName, a);
    var eb := CommandNotFoundException(driverName, b);
    assert Exceptions.Str(ea) == Exceptions.Str(eb);
  }

  /** The message `DeviceCommandException(command, device_driver_name)`
      computes. The name is tested for truthiness, so both a missing name
      and the empty string select the short form. */
  function DeviceCommandMessage(command: DeviceCommand, driverName: Option<string>): string {
    if driverName.Some? && driverName.value != "" then
      "Error while executing the command '" + command.title + "' (id = " + IntToString(command.id)
        + ") for device '" + driverName.value + "'."
    else
      "Error while executing the command '" + command.title + "' (id = " + IntToString(command.id) + ")."
  }

  function DeviceCommandException(command: DeviceCommand, driverName: Option<string>): (e: Exceptions.DeviceDriverException)
    ensures e.kind == Exceptions.DeviceCommandError && e.cause == None
    ensures Exceptions.Str(e) == DeviceCommandMessage(command, driverName)
  {
    Exceptions.DeviceDriverException(Exceptions.DeviceCommandError, DeviceCommandMessage(command, driverName), None)
  }

  /** The driver name appears only when a non-empty one is given: with none,
      or an empty one, the message is the shared prefix and a full stop; with
      a non-empty one, that message's full stop is replaced by the name. */
  lemma DeviceCommandNameOnlyWhenGiven(command: DeviceCommand, driverName: string)
    ensures DeviceCommandMessage(command, None) == Exceptions.ExecutionErrorPrefix(command) + "."
    ensures DeviceCommandMessage(command, Some("")) == DeviceCommandMessage(command, None)
    ensures driverName != "" ==>
      var plain := DeviceCommandMessage(command, None);
      DeviceCommandMessage(command, Some(driverName)) == plain[..|plain| - 1] + " for device '" + driverName + "'."
  {
    var plain := DeviceCommandMessage(command, None);
    assert plain[..|plain| - 1] == Exceptions.ExecutionErrorPrefix(command);
  }

  /** `get_command` of this revision, given what the driver's `get_commands()`
      returned or raised: the first command with the id, a
      `CommandNotFoundException` naming the driver when there is none, and an
      exception of `get_commands()` passed on unchanged. As in the other
      revision, the non-emptiness test is written `result.count() > 0`;
      `GetCommandAsWritten` keeps that, this function the evident intent. */
  function GetCommand(driver: DeviceDriver, fetched: Result<seq<DeviceCommand>, Exceptions.DeviceDriverException>, cmdId: int)
    : (r: Result<DeviceCommand, Exceptions.DeviceDriverException>)
    ensures fetched.Failure? ==> r == Failure(fetched.error)
    ensures fetched.Success? ==> (r.Success? <==> HasCommandWithId(fetched.value, cmdId))
    ensures r.Success? ==> fetched.Success? && r.value.id == cmdId
    ensures r.Success? ==> exists i :: IsFirstWithId(fetched.value, cmdId, i) && fetched.value[i] == r.value
    ensures fetched.Success? && r.Failure? ==> r.error == CommandNotFoundException(driver.Name(), cmdId)
  {
    match fetched
    case Failure(e) => Failure(e)
    case Success(commands) =>
      var result := Filter(HasId(cmdId), commands);
      FilterByIdHead(commands, cmdId);
      if |result| > 0 then Success(result[0])
      else Failure(CommandNotFoundException(driver.Name(), cmdId))
  }

  /** What the written lookup raises: the `TypeError` of `result.count()`,
      or whatever `get_commands()` raised before that. */
  datatype Raised = Python(error: PythonError) | Driver(exception: Exceptions.DeviceDriverException)

  /** The lookup exactly as written: once `get_commands()` has returned, the
      argument-less `result.count()` raises `TypeError`. */
  function GetCommandAsWritten(driver: DeviceDriver, fetched: Result<seq<DeviceCommand>, Exceptions.DeviceDriverException>, cmdId: int)
    : (r: Result<DeviceCommand, Raised>)
    ensures fetched.Failure? ==> r == Failure(Driver(fetched.error))
    ensures fetched.Success? ==> r.Failure? && r.error.Python? && r.error.error.TypeError?
  {
    match fetched
    case Failure(e) => Failure(Driver(e))
    case Success(commands) =>
      var result := Filter(HasId(cmdId), commands);
      Failure(Python(CountWithoutArgument(result)))
  }

  /** The input that shows the defect: the driver has the command, the
      intended lookup returns it, the written one raises `TypeError`. */
  lemma AsWrittenRaisesOnPresentCommand()
    ensures var driver := DeviceDriver(DeviceInfo("TV", "tv-1"));
      var power := DeviceCommand(1, "Power", []);
      GetCommand(driver, Success([power]), 1) == Success(power) &&
      GetCommandAsWritten(driver, Success([power]), 1) == Failure(Python(TypeError("list.count() takes exactly one argument (0 given)")))
  {
    var power := DeviceCommand(1, "Power", []);
    assert IsFirstWithId([power], 1, 0);
  }

  /** The two revisions agree: this one raises `CommandNotFoundException`
      exactly where the other returns `None`, and otherwise both return the
      same command. */
  lemma GetCommandRevisionsAgree(driver: DeviceDriver, commands: seq<DeviceCommand>, cmdId: int)
    ensures GetCommand(driver, Success(commands), cmdId) ==
      match Drivers.GetCommand(commands, cmdId)
      case Some(c) => Success(c)
      case None => Failure(CommandNotFoundException(driver.Name(), cmdId))
  {
  }

  /** The class-level `_config_path` of `DeviceDriverDescriptor`, with its
      static setter and getter. `history` records every path set so far. */
  class ConfigPathStore {
    var configPath: Option<string>
    ghost var history: seq<string>

    /** The stored path is the one most recently set, and `None` before any. */
    ghost predicate Valid()
      reads this
    {
      configPath == if history == [] then None else Some(history[|history| - 1])
    }

    /** The class attribute starts out as `None`. */
    constructor ()
      ensures Valid() && history == [] && configPath == None
    {
      configPath := None;
      history := [];
    }

    /** `set_config_path(config_path)`. */
    method SetConfigPath(path: string)
      requires Valid()
      modifies this
      ensures Valid() && history == old(history) + [path]
      ensures configPath == Some(path)
    {
      configPath := Some(path);
      history := history + [path];
    }

    /** `get_config_path()`: the most recently set path, `None` before any call. */
    method GetConfigPath() returns (path: Option<string>)
      requires Valid()
      ensures history == [] ==> path == None
      ensures history != [] ==> path == Some(history[|history| - 1])
    {
      path := configPath;
    }
  }

  /** A caller's view: nothing is set at first, and each read returns the
      last path set. */
  method ConfigPathScenario() returns (first: Option<string>, second: Option<string>, third: Option<string>)
    ensures first == None && second == Some("/etc/hub") && third == Some("/var/hub")
  {
    var store := new ConfigPathStore();
    first := store.GetConfigPath();
    store.SetConfigPath("/etc/hub");
    second := store.GetConfigPath();
    store.SetConfigPath("/var/hub");
    third := store.GetConfigPath();
  }
}
