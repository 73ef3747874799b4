/** Device records and the per-user device list of the device store: the
    string maps written for each physical device, and the three list
    operations the transactions are built from (scan, patch in place, filter). */
module Devices {
  import opened Wrappers

  // Field names of a device record and of the user document.
  const DeviceIdField: string := "deviceId"
  const FcmTokenField: string := "fcmToken"
  const NameField: string := "name"
  const OsField: string := "os"
  const TypeField: string := "type"

  // Platform description of the device the library runs on. The Android id,
  // the Bluetooth adapter name and the OS release are platform queries; they
  // are fixed here ("Unknown" is the name used when Bluetooth is unavailable).
  const CurrentDeviceId: string := "android-id"
  const DeviceName: string := "Unknown"
  const OsRelease: string := "9"
  const Os: string := "Android " + OsRelease
  const DeviceType: string := "Android"

  type UserId = string
  type Token = string

  /** A device record: a string map whose values may be null. */
  type Device = map<string, Option<string>>

  /** A user document: the `devices` field (absent or null is None) and `userId`. */
  datatype Doc = Doc(devices: Option<seq<Device>>, userId: Option<UserId>)

  /** `Map.get`: null both for a missing key and for a null value. */
  function Get(d: Device, key: string): Option<string> {
    if key in d then d[key] else None
  }

  /** `deviceId.equals(device.get(DEVICE_ID_FIELD))`: the record describes this device. */
  predicate IsCurrent(d: Device) {
    Get(d, DeviceIdField) == Some(CurrentDeviceId)
  }

  /** The record that describes this device with the given push token. */
  function CreateCurrentDevice(token: Option<Token>): (d: Device)
    ensures IsCurrent(d) && Get(d, FcmTokenField) == token
    ensures d.Keys == {DeviceIdField, FcmTokenField, NameField, OsField, TypeField}
    ensures Get(d, OsField) == Some(Os) && Get(d, TypeField) == Some(DeviceType)
  {
    map[DeviceIdField := Some(CurrentDeviceId), FcmTokenField := token,
        NameField := Some(DeviceName), OsField := Some(Os), TypeField := Some(DeviceType)]
  }

  /** A fresh user document: no device for a null token, otherwise exactly this device. */
  function CreateUserDevices(userId: UserId, token: Option<Token>): (doc: Doc)
    ensures doc.userId == Some(userId) && doc.devices.Some?
    ensures token.None? ==> doc.devices.value == []
    ensures token.Some? ==> |doc.devices.value| == 1 && IsCurrent(doc.devices.value[0])
                            && Get(doc.devices.value[0], FcmTokenField) == token
  {
    Doc(Some(if token.None? then [] else [CreateCurrentDevice(token)]), Some(userId))
  }

  /** The device list of a document; a missing or null `devices` field reads as empty. */
  function GetDevices(doc: Doc): (ds: seq<Device>)
    ensures doc.devices.None? ==> ds == []
    ensures doc.devices.Some? ==> ds == doc.devices.value
  {
    doc.devices.GetOr([])
  }

  /** Some entry of the list describes this device. */
  predicate HasCurrentDevice(ds: seq<Device>) {
    exists i :: 0 <= i < |ds| && IsCurrent(ds[i])
  }

  /** The list with every entry describing this device left out, in order. */
  function WithoutCurrentDevice(ds: seq<Device>): seq<Device> {
    if ds == [] then []
    else
      var last := ds[|ds| - 1];
      WithoutCurrentDevice(ds[..|ds| - 1]) + (if IsCurrent(last) then [] else [last])
  }

  /** The list with the push token of every entry describing this device replaced. */
  function WithToken(ds: seq<Device>, token: Option<Token>): (r: seq<Device>)
    ensures |r| == |ds|
    ensures forall i :: 0 <= i < |ds| && !IsCurrent(ds[i]) ==> r[i] == ds[i]
    ensures forall i :: 0 <= i < |ds| && IsCurrent(ds[i]) ==>
              IsCurrent(r[i]) && Get(r[i], FcmTokenField) == token &&
              r[i].Keys == ds[i].Keys + {FcmTokenField} &&
              (forall k :: k in ds[i] && k != FcmTokenField ==> r[i][k] == ds[i][k])
  {
    seq(|ds|, i requires 0 <= i < |ds| =>
      if IsCurrent(ds[i]) then ds[i][FcmTokenField := token] else ds[i])
  }

  /** `containsCurrentDevice`: a scan that stops at the first match. */
  method ContainsCurrentDevice(devices: seq<Device>) returns (found: bool)
    ensures found == HasCurrentDevice(devices)
  {
    for i := 0 to |devices|
      invariant forall j :: 0 <= j < i ==> !IsCurrent(devices[j])
    {
      if IsCurrent(devices[i]) {
        return true;
      }
    }
    return false;
  }

  /** `removeCurrentDevice`: copies every entry that does not describe this device. */
  method RemoveCurrentDevice(devices: seq<Device>) returns (filtered: seq<Device>)
    ensures filtered == WithoutCurrentDevice(devices)
  {
    filtered := [];
    for i := 0 to |devices|
      invariant filtered == WithoutCurrentDevice(devices[..i])
    {
      assert devices[..i + 1][..i] == devices[..i];
      if !IsCurrent(devices[i]) {
        filtered := filtered + [devices[i]];
      }
    }
    assert devices[..|devices|] == devices;
  }

  /** `updateCurrentDevice`: puts the token into every entry describing this device,
      updating the list in place. */
  method UpdateCurrentDevice(devices: array<Device>, token: Option<Token>)
    modifies devices
    ensures devices[..] == WithToken(old(devices[..]), token)
  {
    for i := 0 to devices.Length
      invariant forall j :: 0 <= j < i ==> devices[j] == WithToken(old(devices[..]), token)[j]
      invariant forall j :: i <= j < devices.Length ==> devices[j] == old(devices[j])
    {
      if IsCurrent(devices[i]) {
        devices[i] := devices[i][FcmTokenField := token];
      }
    }
  }

  /** An entry survives the removal exactly when it was in the list and does not
      describe this device. */
  lemma {:induction false} WithoutCurrentDeviceMembers(ds: seq<Device>, d: Device)
    ensures d in WithoutCurrentDevice(ds) <==> d in ds && !IsCurrent(d)
  {
    if ds != [] {
      WithoutCurrentDeviceMembers(ds[..|ds| - 1], d);
      assert ds == ds[..|ds| - 1] + [ds[|ds| - 1]];
    }
  }

  /** After the removal no entry describes this device. */
  lemma NoCurrentDeviceAfterRemoval(ds: seq<Device>)
    ensures !HasCurrentDevice(WithoutCurrentDevice(ds))
  {
    var r := WithoutCurrentDevice(ds);
    forall i | 0 <= i < |r| ensures !IsCurrent(r[i]) {
      WithoutCurrentDeviceMembers(ds, r[i]);
    }
  }

  /** The removal works piecewise, so the surviving entries keep their relative order. */
  lemma {:induction false} WithoutCurrentDeviceAppend(a: seq<Device>, b: seq<Device>)
    ensures WithoutCurrentDevice(a + b) == WithoutCurrentDevice(a) + WithoutCurrentDevice(b)
  {
    if b == [] {
      assert a + b == a;
    } else {
      var b' := b[..|b| - 1];
      WithoutCurrentDeviceAppend(a, b');
      assert (a + b)[..|a + b| - 1] == a + b';
    }
  }

  /** Removing twice is removing once. */
  lemma {:induction false} WithoutCurrentDeviceIdempotent(ds: seq<Device>)
    ensures WithoutCurrentDevice(WithoutCurrentDevice(ds)) == WithoutCurrentDevice(ds)
  {
    if ds != [] {
      var init := ds[..|ds| - 1];
      var last := ds[|ds| - 1];
      WithoutCurrentDeviceIdempotent(init);
      WithoutCurrentDeviceAppend(WithoutCurrentDevice(init), if IsCurrent(last) then [] else [last]);
      if !IsCurrent(last) {
        assert [last][..0] == [];
      }
    }
  }

  /** A list without this device is left as it is by the removal. */
  lemma {:induction false} WithoutCurrentDeviceNoMatch(ds: seq<Device>)
    requires !HasCurrentDevice(ds)
    ensures WithoutCurrentDevice(ds) == ds
  {
    if ds != [] {
      var init := ds[..|ds| - 1];
      assert !HasCurrentDevice(init) by {
        forall i | 0 <= i < |init| ensures !IsCurrent(init[i]) { assert init[i] == ds[i]; }
      }
      WithoutCurrentDeviceNoMatch(init);
      assert ds == init + [ds[|ds| - 1]];
    }
  }

  /** Patching the token changes only entries that the removal drops. */
  lemma {:induction false} WithoutCurrentDeviceAfterPatch(ds: seq<Device>, token: Option<Token>)
    ensures WithoutCurrentDevice(WithToken(ds, token)) == WithoutCurrentDevice(ds)
  {
    if ds != [] {
      var n := |ds| - 1;
      var p := WithToken(ds, token);
      assert p[..n] == WithToken(ds[..n], token);
      WithoutCurrentDeviceAfterPatch(ds[..n], token);
    }
  }

  /** Patching the token keeps every entry that describes this device recognisable. */
  lemma PatchKeepsCurrentDevice(ds: seq<Device>, token: Option<Token>)
    ensures HasCurrentDevice(WithToken(ds, token)) == HasCurrentDevice(ds)
  {
    var p := WithToken(ds, token);
    if HasCurrentDevice(p) {
      var i :| 0 <= i < |p| && IsCurrent(p[i]);
      assert IsCurrent(ds[i]);
    }
    if HasCurrentDevice(ds) {
      var i :| 0 <= i < |ds| && IsCurrent(ds[i]);
      assert IsCurrent(p[i]);
    }
  }
}
