/**
 * The scan bookkeeping of MainActivity: the device list `onScanResult` fills
 * without duplicates, and the `mScanning` flag `scanLeDevice` sets. Starting
 * and stopping the scanner become ScanRequests appended to `requests`.
 */
module DeviceScan {

  /** A BluetoothDevice, as `ArrayList.contains` compares it: by its hardware address. */
  type DeviceId = string

  /** A call into the BLE scanner. */
  datatype ScanRequest = StartScan | StopScan

  ghost predicate NoDuplicates(list: seq<DeviceId>)
  {
    forall i, j :: 0 <= i < j < |list| ==> list[i] != list[j]
  }

  /** The list after one scan result for device: appended at the end unless already present. */
  function AddIfAbsent(list: seq<DeviceId>, device: DeviceId): (r: seq<DeviceId>)
    ensures device in r
    ensures |r| == if device in list then |list| else |list| + 1
    ensures r[..|list|] == list
    ensures NoDuplicates(list) ==> NoDuplicates(r)
  {
    if device in list then list else list + [device]
  }

  /** The list after a series of scan results, oldest first. */
  function AfterScanResults(list: seq<DeviceId>, devices: seq<DeviceId>): seq<DeviceId>
  {
    if devices == [] then list
    else AddIfAbsent(AfterScanResults(list, devices[..|devices| - 1]), devices[|devices| - 1])
  }

  /**
   * Any series of scan results keeps a duplicate-free list duplicate-free,
   * keeps the devices already listed in their places, and lists exactly the
   * devices listed before or reported since.
   */
  lemma {:induction false} ScanResultsKeepListDistinct(list: seq<DeviceId>, devices: seq<DeviceId>)
    requires NoDuplicates(list)
    ensures NoDuplicates(AfterScanResults(list, devices))
    ensures |AfterScanResults(list, devices)| >= |list|
    ensures AfterScanResults(list, devices)[..|list|] == list
    ensures forall d :: d in AfterScanResults(list, devices) <==> d in list || d in devices
  {
    if devices != [] {
      var init := devices[..|devices| - 1];
      ScanResultsKeepListDistinct(list, init);
      var before := AfterScanResults(list, init);
      assert before[..|list|] == list;
      assert AfterScanResults(list, devices)[..|before|] == before;
      assert forall d :: d in devices <==> d in init || d == devices[|devices| - 1];
    }
  }

  /** Reporting a device a second time leaves the list as it was. */
  lemma RepeatedResultIsIgnored(list: seq<DeviceId>, device: DeviceId)
    ensures AddIfAbsent(AddIfAbsent(list, device), device) == AddIfAbsent(list, device)
  {
  }

  class Scanner {
    /** mList */
    var list: seq<DeviceId>
    /** mScanning */
    var scanning: bool
    /** calls made into the BLE scanner, oldest first */
    var requests: seq<ScanRequest>

    ghost predicate Valid()
      reads this
    {
      NoDuplicates(list)
    }

    constructor ()
      ensures Valid()
      ensures list == [] && !scanning && requests == []
    {
      list := [];
      scanning := false;
      requests := [];
    }

    /** onScanResult: the device is appended unless mList already contains it. */
    method OnScanResult(callbackType: int, device: DeviceId)
      requires Valid()
      modifies this`list
      ensures Valid()
      ensures list == AddIfAbsent(old(list), device)
    {
      if device !in list {
        list := list + [device];
      }
    }

    /** onBatchScanResults only logs. */
    method OnBatchScanResults(results: seq<DeviceId>)
      ensures unchanged(this)
    {
    }

    /** onScanFailed only logs. */
    method OnScanFailed(errorCode: int)
      ensures unchanged(this)
    {
    }

    /** scanLeDevice: sets mScanning to enable and starts or stops the scanner; the list is left alone. */
    method ScanLeDevice(enable: bool)
      modifies this`scanning, this`requests
      ensures scanning == enable
      ensures requests == old(requests) + [if enable then StartScan else StopScan]
    {
      if enable {
        scanning := true;
        requests := requests + [StartScan];
      } else {
        scanning := false;
        requests := requests + [StopScan];
      }
    }

    /** The runnable scanLeDevice(true) posts for when the scan period ends. */
    method OnScanPeriodElapsed()
      modifies this`scanning, this`requests
      ensures !scanning
      ensures requests == old(requests) + [StopScan]
    {
      scanning := false;
      requests := requests + [StopScan];
    }
  }
}
