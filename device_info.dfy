/** The device identity record of pi_control_hub_driver_api/device_info.py. */
module DeviceInfos {

  /** A device's name and id; `name` and `deviceId` are the two read-only
      properties, written only by the constructor. */
  datatype DeviceInfo = DeviceInfo(name: string, deviceId: string)

  /** The properties return the constructor arguments, and two records built
      from the same arguments report the same name and device id. */
  lemma DeviceInfoAccessors(name: string, deviceId: string, other: DeviceInfo)
    ensures DeviceInfo(name, deviceId).name == name
    ensures DeviceInfo(name, deviceId).deviceId == deviceId
    ensures other == DeviceInfo(name, deviceId) <==> other.name == name && other.deviceId == deviceId
  {
  }
}
