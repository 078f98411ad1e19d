/** The device selection policy of `selectPreferredDevice`: the first
    enumerated device whose vendor id is the stored preference, when that
    preference is positive, and otherwise the first enumerated device. */
module DeviceSelection {
  import opened Wrappers
  import opened KotlinInt

  /** An enumerated USB device, as far as the policy looks at it. */
  datatype Device = Device(vendorId: Int32, productId: Int32, name: string)

  /** The vendor id used when none has been stored. */
  const DEFAULT_VENDOR_ID: Int32 := 3034

  /** The predicate given to `firstOrNull`. */
  predicate Preferred(d: Device, vendorId: Int32)
    ensures vendorId <= 0 ==> !Preferred(d, vendorId)
    ensures Preferred(d, vendorId) ==> d.vendorId == vendorId
  {
    vendorId > 0 && d.vendorId == vendorId
  }

  /** `firstOrNull { preferredVendorId > 0 && it.vendorId == preferredVendorId }`,
      as an index into `devices`. */
  function FirstPreferredIndex(devices: seq<Device>, vendorId: Int32): (r: Option<nat>)
    ensures r.Some? ==>
              r.value < |devices| && Preferred(devices[r.value], vendorId) &&
              forall j :: 0 <= j < r.value ==> !Preferred(devices[j], vendorId)
    ensures r.None? ==> forall j :: 0 <= j < |devices| ==> !Preferred(devices[j], vendorId)
  {
    if |devices| == 0 then None
    else if Preferred(devices[0], vendorId) then Some(0)
    else
      match FirstPreferredIndex(devices[1..], vendorId)
      case None => None
      case Some(i) => Some(i + 1)
  }

  /** The device `selectPreferredDevice` hands to the driver, or None when the
      enumeration is empty (the source then selects nothing and returns false). */
  function PreferredDevice(devices: seq<Device>, vendorId: Int32): (r: Option<Device>)
    ensures r.None? <==> |devices| == 0
    // vendor match: the first device carrying a positive preferred vendor id
    ensures vendorId > 0 && (exists i :: 0 <= i < |devices| && devices[i].vendorId == vendorId) ==>
              exists k :: 0 <= k < |devices| && r == Some(devices[k]) &&
                          devices[k].vendorId == vendorId &&
                          forall j :: 0 <= j < k ==> devices[j].vendorId != vendorId
    // fallback: no usable preference, or no device carries it
    ensures |devices| > 0 &&
            (vendorId <= 0 || forall i :: 0 <= i < |devices| ==> devices[i].vendorId != vendorId) ==>
              r == Some(devices[0])
    // whatever is chosen is one of the enumerated devices
    ensures r.Some? ==> r.value in devices
  {
    if |devices| == 0 then None
    else
      match FirstPreferredIndex(devices, vendorId)
      case Some(k) => Some(devices[k])
      case None => Some(devices[0])
  }

  /** With preference 3034 and vendors 9999, 3034, 1111 the second device is chosen. */
  lemma SecondDeviceMatches()
    ensures PreferredDevice([Device(9999, 1, "a"), Device(3034, 2, "b"), Device(1111, 3, "c")], 3034)
            == Some(Device(3034, 2, "b"))
  {
  }
}
