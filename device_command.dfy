/** The command record of berry_control_hub_driver_api/device_command.py:
    an id, a title and an icon, fixed when the command is built. */
module Commands {

  newtype byte = x: int | 0 <= x < 256

  /** A device command. The datatype's destructors `id`, `title` and `icon`
      are the record's read-only properties; a datatype value cannot be
      changed after construction, as the record's fields are written only
      by its constructor. */
  datatype DeviceCommand = DeviceCommand(id: int, title: string, icon: seq<byte>)

  /** Building a command and reading it back returns exactly what was given,
      and two commands agree on all three properties only if they were built
      from the same arguments. */
  lemma CommandAccessors(cmdId: int, title: string, icon: seq<byte>, other: DeviceCommand)
    ensures DeviceCommand(cmdId, title, icon).id == cmdId
    ensures DeviceCommand(cmdId, title, icon).title == title
    ensures DeviceCommand(cmdId, title, icon).icon == icon
    ensures other == DeviceCommand(cmdId, title, icon) <==>
              other.id == cmdId && other.title == title && other.icon == icon
  {
  }
}
