/** The driver descriptor of pi_control_hub_driver_api/device_driver_descriptor.py
    (the same class appears in pi_control_hub_driver_api/__init__.py):
    its identity, its authentication method and the derived
    `requires_authentication` flag. */
module Descriptors {
  import opened Wrappers

  /** The four authentication methods; their enum values are 0, 1, 2 and 3. */
  datatype AuthenticationMethod = NoAuthentication | Pin | Password | UserAndPassword

  /** The enum member's `.value`. */
  function Value(m: AuthenticationMethod): (v: nat)
    ensures v < 4
  {
    match m
    case NoAuthentication => 0
    case Pin => 1
    case Password => 2
    case UserAndPassword => 3
  }

  /** `AuthenticationMethod(v)`: the member with value `v`; Python raises
      `ValueError` for any other value, modelled as `None`. */
  function FromValue(v: int): (r: Option<AuthenticationMethod>)
    ensures r.Some? <==> 0 <= v < 4
  {
    if v == 0 then Some(NoAuthentication)
    else if v == 1 then Some(Pin)
    else if v == 2 then Some(Password)
    else if v == 3 then Some(UserAndPassword)
    else None
  }

  /** Value and lookup by value are inverse, so the four members are distinct. */
  lemma ValueRoundTrip(m: AuthenticationMethod, v: int)
    ensures FromValue(Value(m)) == Some(m)
    ensures FromValue(v).Some? ==> Value(FromValue(v).value) == v
    ensures forall m' :: Value(m') == Value(m) ==> m' == m
  {
  }

  /** A 128-bit UUID, the driver id; nothing but its identity is used. */
  type Uuid = x: nat | x < 0x1_0000_0000_0000_0000_0000_0000_0000_0000

  /** A descriptor. `driverId`, `displayName` and `description` are the
      constructor's arguments, read back by the identity properties;
      `authenticationMethod` and `requiresPairing` are what the concrete
      driver's abstract properties return. No field is ever reassigned. */
  datatype DeviceDriverDescriptor = DeviceDriverDescriptor(
    driverId: Uuid,
    displayName: string,
    description: string,
    authenticationMethod: AuthenticationMethod,
    requiresPairing: bool)
  {
    /** Derived on every read from the authentication method, never stored. */
    predicate RequiresAuthentication() {
      authenticationMethod != NoAuthentication
    }
  }

  /** `requires_authentication` is false for NONE and true for PIN, PASSWORD
      and USER_AND_PASSWORD, i.e. true exactly when the method's value is not 0. */
  lemma RequiresAuthenticationByMethod(d: DeviceDriverDescriptor)
    ensures d.authenticationMethod == NoAuthentication ==> !d.RequiresAuthentication()
    ensures d.authenticationMethod == Pin ==> d.RequiresAuthentication()
    ensures d.authenticationMethod == Password ==> d.RequiresAuthentication()
    ensures d.authenticationMethod == UserAndPassword ==> d.RequiresAuthentication()
    ensures d.RequiresAuthentication() <==> Value(d.authenticationMethod) != 0
  {
  }

  /** The flag depends on nothing but the authentication method: two
      descriptors with the same method agree on it whatever else differs. */
  lemma RequiresAuthenticationIsDerived(d: DeviceDriverDescriptor, e: DeviceDriverDescriptor)
    requires d.authenticationMethod == e.authenticationMethod
    ensures d.RequiresAuthentication() == e.RequiresAuthentication()
  {
  }

  /** The identity properties return exactly the constructor arguments. */
  lemma DescriptorAccessors(driverId: Uuid, displayName: string, description: string,
                            authenticationMethod: AuthenticationMethod, requiresPairing: bool)
    ensures var d := DeviceDriverDescriptor(driverId, displayName, description, authenticationMethod, requiresPairing);
      d.driverId == driverId && d.displayName == displayName && d.description == description
  {
  }
}
