# PiControl Hub driver API — verified model

The PiControl Hub driver API is the contract between the PiControl Hub and
pluggable device drivers. A driver descriptor describes one type of driver:
its identity, the authentication it needs, discovery and pairing. A device
driver controls one device through a list of commands. A small family of
exceptions reports failures. Almost all of the API is abstract. This model
covers the parts that do have behaviour:

- **Records.** The command record is `Commands.DeviceCommand`: id, title
  and icon bytes. The device identity is `DeviceInfos.DeviceInfo`: name and
  device id. The descriptor is `Descriptors.DeviceDriverDescriptor`: driver
  id, display name, description, authentication method and the pairing
  flag. All three are immutable datatypes whose destructors are the
  read-only properties.
- **Authentication.** `Descriptors.AuthenticationMethod` has the enum
  values 0 to 3. `RequiresAuthentication` is derived from the method
  whenever it is read and is never stored.
- **Command lookup.** `get_command` exists in two revisions. The revision
  in `Drivers` (device_driver.py) returns `None` when no command matches.
  The revision in `HubApi` (`__init__.py`) raises `CommandNotFoundException`
  instead. Both are Python's `filter` followed by a "first element" step,
  modelled in `Lookup`. What the abstract `get_commands()` returned, or
  raised, is a parameter.
- **Exceptions.** `Exceptions` models exceptions.py. `HubApi` models the
  older constructors in `__init__.py`. An exception is a value: its class,
  the message its constructor builds and an optional cause. `Text` renders
  an `int` the way an f-string does, and reads a message back.
- **Config path.** `HubApi.ConfigPathStore` is a class holding the
  process-wide config path, with a setter and a getter.

Python integers are unbounded, like Dafny's `int`, so ids need no wrap-around.

## Model

| member | source | states |
|---|---|---|
| `Commands.CommandAccessors` | berry_control_hub_driver_api/device_command.py:28-57 | `id`, `title` and `icon` return exactly the constructor arguments; two commands agree on all three only if they were built alike |
| `DeviceInfos.DeviceInfoAccessors` | pi_control_hub_driver_api/device_info.py:17-32 | `name` and `device_id` return the constructor arguments; records built from the same arguments report the same values |
| `Lookup.Filter` | pi_control_hub_driver_api/device_driver.py:49 | every element of `list(filter(p, s))` satisfies `p`, an element is in it iff it is in `s` and satisfies `p`, and it is no longer than `s` |
| `Lookup.FilterCount` | pi_control_hub_driver_api/device_driver.py:49 | the filter keeps every copy of an element that satisfies `p` and no copy of one that does not |
| `Lookup.FilterAppend` | pi_control_hub_driver_api/__init__.py:143 | the filter keeps order: filtering `s + t` gives the filtered `s` followed by the filtered `t` |
| `Lookup.FilterHeadIsFirstMatch` | pi_control_hub_driver_api/device_driver.py:49-51 | the head of a filtered list is the first element of the original list that satisfies the predicate |
| `Lookup.FilterByIdHead` | pi_control_hub_driver_api/__init__.py:143-145 | filtering by id leaves a non-empty list exactly when some command has that id; its head is the first such command |
| `Drivers.GetCommand` | pi_control_hub_driver_api/device_driver.py:37-52 | returns a command iff some command has the id; that command has the id, is in the list and is the first one with it; returns `None` iff no command has the id |
| `Drivers.GetCommandAsWritten` | pi_control_hub_driver_api/device_driver.py:49-52 | as written, every call ends in the `TypeError` that `Lookup.CountWithoutArgument` gives for the argument-less `result.count()`, whatever the list holds |
| `Drivers.AsWrittenMissesPresentCommand` | pi_control_hub_driver_api/device_driver.py:50 | for a list holding one command with id 1, queried with id 1, the intended lookup returns the command and the written one raises |
| `Drivers.GetCommandFindsMember` | pi_control_hub_driver_api/device_driver.py:37-52 | when ids are unique, looking up a listed command by its id returns that command |
| `Descriptors.Value` | pi_control_hub_driver_api/device_driver_descriptor.py:28-40 | every authentication method has an enum value below 4 |
| `Descriptors.FromValue` | pi_control_hub_driver_api/__init__.py:197-209 | looking a method up by value succeeds exactly for the values 0 to 3 |
| `Descriptors.ValueRoundTrip` | pi_control_hub_driver_api/device_driver_descriptor.py:30-39 | value and lookup by value are inverse, so the four members are distinct |
| `Descriptors.RequiresAuthenticationByMethod` | pi_control_hub_driver_api/device_driver_descriptor.py:80-83 | `requires_authentication`, modelled by the predicate `DeviceDriverDescriptor.RequiresAuthentication`, is false for NONE and true for PIN, PASSWORD and USER_AND_PASSWORD, i.e. true exactly when the method's value is not 0 |
| `Descriptors.RequiresAuthenticationIsDerived` | pi_control_hub_driver_api/__init__.py:259-262 | `DeviceDriverDescriptor.RequiresAuthentication` is computed from the authentication method alone, never stored: descriptors with the same method agree on it |
| `Descriptors.DescriptorAccessors` | pi_control_hub_driver_api/device_driver_descriptor.py:49-67 | `driver_id`, `display_name` and `description` return the constructor arguments |
| `Text.IntToString` | pi_control_hub_driver_api/__init__.py:339 | an `int` in an f-string renders as the canonical decimal numeral: a `-` exactly when the number is negative, then digits with no leading zero unless the number is 0 |
| `Text.ParseIntToString` | pi_control_hub_driver_api/__init__.py:339 | the rendering of every integer reads back as that integer |
| `Text.IntToStringInjective` | pi_control_hub_driver_api/exceptions.py:37 | distinct ids render differently |
| `Exceptions.NewDeviceDriverException` | pi_control_hub_driver_api/exceptions.py:26-31 | `str(e)`, modelled by `Exceptions.Str`, is exactly the message given, and the cause is kept unchanged |
| `Exceptions.CommandNotFoundException` | pi_control_hub_driver_api/exceptions.py:33-37 | the exception has no cause, its message is exactly `Exceptions.CommandNotFoundMessage` (the f-string `The device '<name>' (id = <device_id>) has no command with id '<id>'`), and the command id reads back from it |
| `Exceptions.CommandNotFoundMentionsInOrder` | pi_control_hub_driver_api/exceptions.py:37 | the message `Exceptions.CommandNotFoundMessage` contains the driver's name, then its device id, then the command id |
| `Exceptions.DeviceCommandException` | pi_control_hub_driver_api/exceptions.py:39-46 | the exception has no cause, and its message is `Exceptions.DeviceCommandMessage`, whose branch is chosen by whether a driver was passed |
| `Exceptions.DeviceCommandMessageExtendsPlain` | pi_control_hub_driver_api/exceptions.py:43-46 | without a driver the message is `Error while executing the command '<title>' (id = <id>).`; with one it is that message without its final `.`, followed by the driver's name and device id |
| `Exceptions.DeviceCommandMentionsInOrder` | pi_control_hub_driver_api/exceptions.py:44 | the with-driver message contains the title, the command id, the driver's name and its device id, in that order |
| `HubApi.DriverIdentity` | pi_control_hub_driver_api/__init__.py:98-109 | a driver's `name` and `device_id`, modelled by `DeviceDriver.Name` and `DeviceDriver.DeviceId`, are those of the `DeviceInfo` it was built with |
| `HubApi.DeviceNotFoundException` | pi_control_hub_driver_api/__init__.py:330-333 | the exception has no cause, and the device id reads back from its message, `HubApi.DeviceNotFoundMessage` |
| `HubApi.DeviceNotFoundMessageParses` | pi_control_hub_driver_api/__init__.py:333 | a message reads back as a given id iff it is exactly `Device with ID '<id>' not found.` |
| `HubApi.CommandNotFoundException` | pi_control_hub_driver_api/__init__.py:335-339 | the exception has no cause, its message is exactly `HubApi.CommandNotFoundMessage`: `The device '<name>' has no command with id '<id>'`, and the command id reads back from it |
| `HubApi.CommandNotFoundMessageInjective` | pi_control_hub_driver_api/__init__.py:339 | for one driver name, different command ids give different messages |
| `HubApi.DeviceCommandException` | pi_control_hub_driver_api/__init__.py:341-348 | the exception has no cause, and its message is `HubApi.DeviceCommandMessage`, whose branch is chosen by the driver name's truthiness |
| `HubApi.DeviceCommandNameOnlyWhenGiven` | pi_control_hub_driver_api/__init__.py:344-348 | with no name or an empty name the message is `Error while executing the command '<title>' (id = <id>).`; a non-empty name replaces the final `.` with ` for device '<name>'.` |
| `HubApi.GetCommand` | pi_control_hub_driver_api/__init__.py:125-146 | if `get_commands()` raised, the same exception is passed on; otherwise returns a command iff one has the id, and it is the first such command; else raises `CommandNotFoundException(name, cmd_id)` |
| `HubApi.GetCommandAsWritten` | pi_control_hub_driver_api/__init__.py:143-146 | as written, once `get_commands()` returns, the call raises the `TypeError` of the argument-less `result.count()` (`Lookup.CountWithoutArgument`); an exception from `get_commands()` is passed on |
| `HubApi.AsWrittenRaisesOnPresentCommand` | pi_control_hub_driver_api/__init__.py:144 | for a driver that has command 1, the intended lookup returns it and the written one raises `TypeError` |
| `HubApi.GetCommandRevisionsAgree` | pi_control_hub_driver_api/__init__.py:143-146 | this revision raises not-found exactly where the device_driver.py revision returns `None`; otherwise both return the same command |
| `HubApi.ConfigPathStore.constructor` | pi_control_hub_driver_api/__init__.py:217 | the config path starts as `None`, with nothing set |
| `HubApi.ConfigPathStore.SetConfigPath` | pi_control_hub_driver_api/__init__.py:219-223 | the stored path becomes the given one and is recorded as the latest setting |
| `HubApi.ConfigPathStore.GetConfigPath` | pi_control_hub_driver_api/__init__.py:225-228 | returns the path most recently set, or `None` before any call |
| `HubApi.ConfigPathScenario` | pi_control_hub_driver_api/__init__.py:217-228 | a read before any set gives `None`; each later read gives the last path set |

## Left out

- The abstract members have no bodies: `get_commands`, `remote_layout_size`, `remote_layout`, `execute` (on drivers and on commands), `is_device_ready`, `get_devices`, `start_pairing`, `finalize_pairing` and `create_device_instance`. They are not declared: a bodyless member would be an unproved axiom, and nothing in the model calls them. No pairing-token or layout property is claimed. What `get_commands()` produced is an argument of the lookups.
- The abstract properties `authentication_method` and `requires_pairing` are fields of `Descriptors.DeviceDriverDescriptor`, holding whatever the concrete driver returns.
- `installed_drivers` is left out: it discovers plugins through package metadata and loads code dynamically.
- The `pluginlib` registration decorators are foreign plugin plumbing and are left out.
- setup.py is packaging metadata and is not part of this model.
- UUID semantics are left out. The driver id is any 128-bit number, compared only for identity.
- Thread safety of the class-level config path is left out. The store is modelled single-threaded.
- `Drivers.GetCommand`: does not model an exception raised by `get_commands()`, because device_driver.py documents none. The `HubApi` revision does model it.
- The exceptions.py constructors take the driver as a `DeviceInfo` value, holding the `name` and `device_id` they read. The `DeviceDriver` of device_driver.py declares neither property, so a concrete driver must supply them.
- A cause that is not a driver exception is kept only as its description.
- Text.IntToString: renders every integer, but recent CPython versions (3.11 and later, and security releases of 3.7 to 3.10) refuse by default to render an int of more than 4300 decimal digits and raise `ValueError`. That limit depends on the version and configuration and is not modelled. Every exception constructor that renders a command id inherits this: `Exceptions.CommandNotFoundException`, `Exceptions.DeviceCommandException`, `HubApi.CommandNotFoundException` and `HubApi.DeviceCommandException` build a message where the interpreter would raise instead.

## Findings

| source | as written | input that shows it | evidently intended | confidence | as-written member | corrected member |
|---|---|---|---|---|---|---|
| pi_control_hub_driver_api/__init__.py:144 | `if result.count() > 0:` calls `list.count` without its required argument, so `get_command` raises `TypeError` on every call | a driver whose `get_commands()` returns one instance of a concrete `DeviceCommand` subclass with id 1, queried with `get_command(1)` | test that the filtered list is non-empty, return its first element, else raise `CommandNotFoundException(self.name, cmd_id)` | high; not executed | `HubApi.GetCommandAsWritten` (shown by `HubApi.AsWrittenRaisesOnPresentCommand`) | `HubApi.GetCommand` |
| pi_control_hub_driver_api/device_driver.py:50 | the same `result.count() > 0` test, so `get_command` raises `TypeError` instead of returning a command or `None` | `get_commands()` returns one instance of a concrete `DeviceCommand` subclass with id 1, query `get_command(1)` | return the first command with the id, or `None` when there is none | high; not executed | `Drivers.GetCommandAsWritten` (shown by `Drivers.AsWrittenMissesPresentCommand`) | `Drivers.GetCommand` |
