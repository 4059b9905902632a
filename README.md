# hello-ble: characteristic decoding, GATT session and scan list

This project models the logic of the hello-ble Android demo: an app that scans
for Bluetooth Low Energy peripherals, connects to one, lists its GATT services
and characteristics, and decodes the values that arrive.

- `wrappers.dfy` (module `Wrappers`): `Option`. `None` stands for a Java `null`, or for a call that ends in an exception.
- `decoder.dfy` (module `CharacteristicDecoder`): the pure part of `DeviceActivity`.
  - `shortUnsignedAtOffset`, the little-endian combine `(upper << 8) + lower` of two unsigned bytes.
  - The combined characteristic's temperature numerator, humidity (truncating `/ 100`) and air quality.
  - The heart-rate read.
  - The `%02X ` hex rendering, as the StringBuilder loop (`FormatHex`) proved against a recursive definition (`HexString`) and its inverse (`ParseHex`).
  - The ordered dispatch of `broadcastUpdate(action, characteristic)`: heart rate, then combined, then hex.
- `session.dfy` (module `GattSession`): class `DeviceSession`, with the fields of `DeviceActivity` that the callbacks update.
  - `mConnectionState` and `mBluetoothGatt`.
  - The three parallel tables `mGroupData`, `mChildData` and `mGattCharacteristics`.
  - Calls into the Bluetooth stack are recorded as `Request`s, and broadcast intents as `Intent`s, in the order they happen.
- `scan.dfy` (module `DeviceScan`): class `Scanner`, with `mList`, `mScanning` and the scanner start/stop calls of `MainActivity`.

Conventions of the model:

- A read past the end of a payload makes `getIntValue` return `null`, and unboxing that null throws. The decoder then yields `None`, and the session sends no intent.
- A `null` payload acts exactly like an empty one on every path, so payloads are plain sequences.
- The heart-rate UUID is `UUID.randomUUID()` in the source. It is a parameter here (`heartRateUuid`).
- The heart-rate branch takes its UINT8/UINT16 flag from bit 0 of the characteristic's *properties*, not from payload byte 0 as the Heart Rate Measurement format would. The model does what the code does, and `HeartRateIgnoresByte0` states that consequence.
- UUIDs are their lower-case `toString()` text. The combined characteristic is `3bd91530-ec56-9cf3-b2df-f2e239d01013`.

The model keeps these behaviours of the code:

- The state is never set to CONNECTING. Connecting only stores the new handle.
- A DISCONNECTED callback does not clear the service tables.
- A click on a characteristic is not checked against the connection state.
- `close` does not change the connection state.

## Model

| member | source | states |
|---|---|---|
| CharacteristicDecoder.UInt8At | app/src/main/java/com/mch/helloble/DeviceActivity.java:354-355 | an unsigned byte read exists iff the offset is inside the payload, and lies in [0, 255] |
| CharacteristicDecoder.UInt16At | app/src/main/java/com/mch/helloble/DeviceActivity.java:252 | a UINT16 read exists iff two bytes remain at the offset, and lies in [0, 65535] |
| CharacteristicDecoder.ShortUnsignedAtOffset | app/src/main/java/com/mch/helloble/DeviceActivity.java:353-358 | defined iff offset+2 <= length; in [0, 65535]; its little-endian bytes are exactly payload[offset..offset+2] |
| CharacteristicDecoder.ShortUnsignedRoundTrip | app/src/main/java/com/mch/helloble/DeviceActivity.java:353-358 | reading back the two little-endian bytes of any x < 65536, at any position in a payload, yields x |
| CharacteristicDecoder.ShortUnsignedIsUInt16 | app/src/main/java/com/mch/helloble/DeviceActivity.java:353-358 | the two UINT8 reads combined agree with one UINT16 read at the same offset, including when bytes are missing |
| CharacteristicDecoder.CombinedTemperatureNumerator | app/src/main/java/com/mch/helloble/DeviceActivity.java:337-341 | defined iff at least 2 bytes; numerator + 27315 is the u16 at offset 0; numerator in [-27315, 38220] |
| CharacteristicDecoder.JavaDiv | app/src/main/java/com/mch/helloble/DeviceActivity.java:345 | Java's int division truncates toward zero, for every sign of dividend and divisor: the quotient times the divisor lies between zero and the dividend, within one divisor of it |
| CharacteristicDecoder.CombinedHumidity | app/src/main/java/com/mch/helloble/DeviceActivity.java:343-347 | defined iff at least 4 bytes; in [0, 655]; the truncated quotient of the u16 at offset 2 by 100 |
| CharacteristicDecoder.CombinedAirQuality | app/src/main/java/com/mch/helloble/DeviceActivity.java:349-351 | defined iff at least 6 bytes; equals the u16 at offset 4 |
| CharacteristicDecoder.HeartRateValue | app/src/main/java/com/mch/helloble/DeviceActivity.java:242-254 | properties bit 0 set: the UINT16 at offset 1, defined iff at least 3 bytes; clear: the byte at offset 1, defined iff at least 2 bytes |
| CharacteristicDecoder.HeartRateIgnoresByte0 | app/src/main/java/com/mch/helloble/DeviceActivity.java:243-252 | the heart-rate value does not depend on payload byte 0, because the flag comes from the properties |
| CharacteristicDecoder.HexDigit | app/src/main/java/com/mch/helloble/DeviceActivity.java:268 | `%X` writes each value below 16 as one upper-case hex digit that reads back as that value |
| CharacteristicDecoder.HexPair | app/src/main/java/com/mch/helloble/DeviceActivity.java:268 | each byte renders as two upper-case hex digits and a space, and the two digits read back as the byte |
| CharacteristicDecoder.HexString | app/src/main/java/com/mch/helloble/DeviceActivity.java:264-271 | the rendering of n bytes has length 3n |
| CharacteristicDecoder.HexStringAt | app/src/main/java/com/mch/helloble/DeviceActivity.java:267-268 | characters 3i..3i+3 are the pair of byte i: two upper-case hex digits and a space, in byte order |
| CharacteristicDecoder.HexRoundTrip | app/src/main/java/com/mch/helloble/DeviceActivity.java:264-271 | parsing the hex rendering back yields the payload, so the rendering loses nothing |
| CharacteristicDecoder.FormatHex | app/src/main/java/com/mch/helloble/DeviceActivity.java:266-268 | the StringBuilder loop produces exactly HexString(data) |
| CharacteristicDecoder.Decode | app/src/main/java/com/mch/helloble/DeviceActivity.java:236-274 | dispatch in order heart rate, combined, hex, so exactly one branch yields the extras; each branch's extras and failure condition in payload bytes; the fallback never fails, attaches nothing for an empty payload and otherwise exactly the HexString rendering (3n characters, upper-case pairs in byte order) |
| CharacteristicDecoder.BroadcastUpdate | app/src/main/java/com/mch/helloble/DeviceActivity.java:236-274 | the imperative broadcastUpdate, with its hex loop, computes exactly Decode |
| CharacteristicDecoder.CombinedReadsSixBytes | app/src/main/java/com/mch/helloble/DeviceActivity.java:255-261 | the combined path reads nothing past byte 5: appended bytes do not change the extras |
| CharacteristicDecoder.CombinedExample | app/src/main/java/com/mch/helloble/DeviceActivity.java:255-261 | payload 64 6B B8 13 2A 00 decodes to numerator 177, humidity 50, air quality 42 |
| CharacteristicDecoder.HeartRateExample | app/src/main/java/com/mch/helloble/DeviceActivity.java:242-254 | properties 0x01 with payload 01 4B 00 decodes to heart rate 75 |
| GattSession.CharacteristicLabel | app/src/main/java/com/mch/helloble/DeviceActivity.java:310-317 | a child label starts with the characteristic's UUID |
| GattSession.LabelMarksCombined | app/src/main/java/com/mch/helloble/DeviceActivity.java:313-315 | a label has the " ! " suffix iff the UUID is the combined one, and is the bare UUID otherwise |
| GattSession.NextState | app/src/main/java/com/mch/helloble/DeviceActivity.java:80-92 | one callback changes the state only on a CONNECTED or DISCONNECTED report, and never to CONNECTING |
| GattSession.StateFollowsLastReport | app/src/main/java/com/mch/helloble/DeviceActivity.java:78-93 | after any series of state callbacks, the state is CONNECTED or DISCONNECTED as the last such report says, and unchanged when there was none |
| GattSession.NeverConnecting | app/src/main/java/com/mch/helloble/DeviceActivity.java:49-51 | from a state other than CONNECTING, no series of callbacks reaches CONNECTING |
| GattSession.DeviceSession.constructor | app/src/main/java/com/mch/helloble/DeviceActivity.java:60-74 | a new session is DISCONNECTED, holds no handle, has empty tables and has made no requests |
| GattSession.DeviceSession.Connect | app/src/main/java/com/mch/helloble/DeviceActivity.java:210-215 | the result of connectGatt, null included, replaces the held handle without releasing it; the connection state is left as it was |
| GattSession.DeviceSession.OnConnectionStateChange | app/src/main/java/com/mch/helloble/DeviceActivity.java:78-93 | CONNECTED: state Connected, one GattConnected intent, and exactly one discovery request when a handle is held; DISCONNECTED: state Disconnected, one intent; any other value changes nothing |
| GattSession.DeviceSession.OnServicesDiscovered | app/src/main/java/com/mch/helloble/DeviceActivity.java:96-101 | broadcasts once on GATT_SUCCESS; otherwise nothing |
| GattSession.DeviceSession.SendData | app/src/main/java/com/mch/helloble/DeviceActivity.java:236-274 | sends one data intent carrying Decode's extras, and none when decoding throws |
| GattSession.DeviceSession.OnCharacteristicRead | app/src/main/java/com/mch/helloble/DeviceActivity.java:104-111 | a read result is decoded and sent only on GATT_SUCCESS |
| GattSession.DeviceSession.OnCharacteristicChanged | app/src/main/java/com/mch/helloble/DeviceActivity.java:114-117 | every notification is decoded and sent |
| GattSession.DeviceSession.DisplayGattServices | app/src/main/java/com/mch/helloble/DeviceActivity.java:276-327 | null changes nothing; otherwise the tables become one group per service, in order, with that service's characteristics, and childData[i][j] labels gattCharacteristics[i][j] |
| GattSession.DeviceSession.OnChildClick | app/src/main/java/com/mch/helloble/DeviceActivity.java:187-199 | with a handle, one read request and then one enable-notification request for the characteristic at the clicked position; without one, no request |
| GattSession.DeviceSession.Close | app/src/main/java/com/mch/helloble/DeviceActivity.java:329-335 | afterwards no handle is held; one release when a handle was held, none otherwise |
| GattSession.CloseTwice | app/src/main/java/com/mch/helloble/DeviceActivity.java:329-335 | two closes in a row release at most once: the second is a no-op |
| DeviceScan.AddIfAbsent | app/src/main/java/com/mch/helloble/MainActivity.java:56-60 | the device is in the result; the length grows by one iff it was absent; earlier entries keep their places; no duplicates are introduced |
| DeviceScan.ScanResultsKeepListDistinct | app/src/main/java/com/mch/helloble/MainActivity.java:53-61 | any series of scan results keeps the list duplicate-free with earlier entries in place, and lists exactly the devices seen |
| DeviceScan.RepeatedResultIsIgnored | app/src/main/java/com/mch/helloble/MainActivity.java:57 | reporting a device a second time leaves the list unchanged |
| DeviceScan.Scanner.constructor | app/src/main/java/com/mch/helloble/MainActivity.java:34-49 | the list starts empty and scanning off |
| DeviceScan.Scanner.OnScanResult | app/src/main/java/com/mch/helloble/MainActivity.java:53-61 | keeps the list duplicate-free; the new list is AddIfAbsent of the old |
| DeviceScan.Scanner.OnBatchScanResults | app/src/main/java/com/mch/helloble/MainActivity.java:64-66 | leaves the list and the flag unchanged |
| DeviceScan.Scanner.OnScanFailed | app/src/main/java/com/mch/helloble/MainActivity.java:69-71 | leaves the list and the flag unchanged |
| DeviceScan.Scanner.ScanLeDevice | app/src/main/java/com/mch/helloble/MainActivity.java:131-151 | the flag becomes the argument, one start or stop request is made, and the list is not touched |
| DeviceScan.Scanner.OnScanPeriodElapsed | app/src/main/java/com/mch/helloble/MainActivity.java:136-140 | when the scan period ends, the flag is cleared and the scanner stopped |

## Left out

- CharacteristicDecoder.CombinedTemperatureNumerator: the temperature itself is `(raw - 27315) / 100` in floating point. Only the integer numerator is modelled.
- CharacteristicDecoder.Decode: the heart-rate extra is an integer, not its decimal text from `String.valueOf`.
- CharacteristicDecoder.Decode: the hex extra omits the `new String(data) + "\n"` prefix, because that text depends on the platform charset.
- The broadcast receiver (`mGattUpdateReceiver`) is left out, as are `displayData`, the Snackbars, the `mConnected` flag and the list adapters (`MyItemRecyclerViewAdapter` only binds views). `DisplayGattServices` takes the service list as its argument, in place of `mBluetoothGatt.getServices()`.
- Bluetooth stack calls (`connectGatt`, `discoverServices`, `readCharacteristic`, `setCharacteristicNotification`, `close`, `startScan`, `stopScan`) are recorded requests with no effect. Their results come back only as callback arguments.
- The scan timeout's scheduling (`Handler.postDelayed`) is left out, because it is timing. The runnable it posts is `OnScanPeriodElapsed`.
- Permission requests, activity lifecycle ordering, threading and logging are left out.
- An exception (a null handle, or a too-short payload) is modelled as the callback doing nothing more. The crash of the app is not modelled.
- `mGattCharacteristics` is `null` until the first discovery. The model starts it as an empty table, which the list view makes equivalent.
- A second `connectGatt` replaces the handle without closing the previous one, and a null result (no GATT service available) drops it the same way. The model does the same, and releases nothing.
