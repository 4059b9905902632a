/**
 * The GATT session bookkeeping of DeviceActivity: the connection state the
 * transport callbacks drive, the handle `close` releases, the three tables
 * `displayGattServices` rebuilds, and the reads a click on a characteristic
 * issues.
 *
 * Calls into the Bluetooth stack are not performed; each becomes a Request
 * appended to `requests`, and each intent the activity broadcasts becomes an
 * Intent appended to `sent`, so that their number and order can be stated.
 */
module GattSession {
  import opened Wrappers
  import opened CharacteristicDecoder

  /** BluetoothProfile.STATE_DISCONNECTED and STATE_CONNECTED, as the transport reports them. */
  const PROFILE_STATE_DISCONNECTED := 0
  const PROFILE_STATE_CONNECTED := 2

  /** BluetoothGatt.GATT_SUCCESS. */
  const GATT_SUCCESS := 0

  /** The activity's STATE_DISCONNECTED (0), STATE_CONNECTING (1) and STATE_CONNECTED (2). */
  datatype ConnectionState = Disconnected | Connecting | Connected

  datatype Service = Service(uuid: Uuid, characteristics: seq<Characteristic>)

  /** The identity of one BluetoothGatt object handed out by `connectGatt`. */
  type GattHandle = nat

  /** A call into the Bluetooth stack. */
  datatype Request =
    | ConnectGatt(result: Option<GattHandle>)
    | DiscoverServices(handle: GattHandle)
    | ReadCharacteristic(handle: GattHandle, characteristic: Characteristic)
    | SetCharacteristicNotification(handle: GattHandle, characteristic: Characteristic, enable: bool)
    | Release(handle: GattHandle)

  /** An intent sent by a `broadcastUpdate` overload. */
  datatype Intent =
    | GattConnected
    | GattDisconnected
    | ServicesDiscovered
    | DataAvailable(extras: Extras)

  /** The child label of a characteristic: its UUID, marked with " ! " for the combined characteristic. */
  function CharacteristicLabel(c: Characteristic): (text: string)
    ensures |text| >= |c.uuid| && text[..|c.uuid|] == c.uuid
  {
    if c.uuid == COMBINE_DATA_CHAR then c.uuid + " ! " else c.uuid
  }

  /** A label carries the " ! " suffix exactly when its characteristic is the combined one. */
  lemma LabelMarksCombined(c: Characteristic)
    ensures CharacteristicLabel(c) == c.uuid + " ! " <==> c.uuid == COMBINE_DATA_CHAR
    ensures CharacteristicLabel(c) == c.uuid <==> c.uuid != COMBINE_DATA_CHAR
  {
    assert |c.uuid + " ! "| != |c.uuid|;
  }

  /** The connection state after one onConnectionStateChange callback reporting newState. */
  function NextState(state: ConnectionState, newState: int): (r: ConnectionState)
    ensures r == Connecting ==> state == Connecting
    ensures r != state ==> newState == PROFILE_STATE_CONNECTED || newState == PROFILE_STATE_DISCONNECTED
  {
    if newState == PROFILE_STATE_CONNECTED then Connected
    else if newState == PROFILE_STATE_DISCONNECTED then Disconnected
    else state
  }

  /** The connection state after a series of onConnectionStateChange callbacks. */
  function StateAfter(state: ConnectionState, events: seq<int>): ConnectionState
  {
    if events == [] then state
    else NextState(StateAfter(state, events[..|events| - 1]), events[|events| - 1])
  }

  /** The most recent report of CONNECTED or DISCONNECTED among the events, if any. */
  function LastReport(events: seq<int>): (r: Option<int>)
    ensures r.Some? ==> r.value == PROFILE_STATE_CONNECTED || r.value == PROFILE_STATE_DISCONNECTED
    ensures r.Some? ==> r.value in events
  {
    if events == [] then None
    else
      var e := events[|events| - 1];
      if e == PROFILE_STATE_CONNECTED || e == PROFILE_STATE_DISCONNECTED then Some(e)
      else LastReport(events[..|events| - 1])
  }

  /**
   * The state follows the transport's last report: CONNECTED iff the last
   * decisive report was CONNECTED, DISCONNECTED iff it was DISCONNECTED, and
   * the initial state when no report was decisive.
   */
  lemma {:induction false} StateFollowsLastReport(state: ConnectionState, events: seq<int>)
    ensures StateAfter(state, events) ==
      match LastReport(events)
      case None => state
      case Some(e) => if e == PROFILE_STATE_CONNECTED then Connected else Disconnected
  {
    if events != [] {
      StateFollowsLastReport(state, events[..|events| - 1]);
    }
  }

  /** No callback ever assigns STATE_CONNECTING. */
  lemma {:induction false} NeverConnecting(state: ConnectionState, events: seq<int>)
    requires state != Connecting
    ensures StateAfter(state, events) != Connecting
  {
    StateFollowsLastReport(state, events);
  }

  class DeviceSession {
    /** UUID_HEART_RATE_MEASUREMENT, drawn at random when the class loads. */
    const heartRateUuid: Uuid
    /** mConnectionState */
    var connectionState: ConnectionState
    /** mBluetoothGatt; None for null */
    var gatt: Option<GattHandle>
    /** mGroupData: one service UUID per group */
    var groupData: seq<Uuid>
    /** mChildData: one label per characteristic, grouped by service */
    var childData: seq<seq<string>>
    /** mGattCharacteristics: the characteristics, grouped by service */
    var gattCharacteristics: seq<seq<Characteristic>>
    /** calls made into the Bluetooth stack, oldest first */
    var requests: seq<Request>
    /** intents broadcast, oldest first */
    var sent: seq<Intent>

    /** The three tables are parallel: childData[i][j] labels gattCharacteristics[i][j]. */
    ghost predicate Valid()
      reads this
    {
      |groupData| == |childData| == |gattCharacteristics| &&
      forall i :: 0 <= i < |childData| ==>
        |childData[i]| == |gattCharacteristics[i]| &&
        forall j :: 0 <= j < |childData[i]| ==> childData[i][j] == CharacteristicLabel(gattCharacteristics[i][j])
    }

    /** The tables list the given services, one group per service, in order. */
    ghost predicate Shows(services: seq<Service>)
      reads this
    {
      |groupData| == |gattCharacteristics| == |services| &&
      forall i :: 0 <= i < |services| ==>
        groupData[i] == services[i].uuid && gattCharacteristics[i] == services[i].characteristics
    }

    constructor (heartRateUuid: Uuid)
      ensures Valid()
      ensures this.heartRateUuid == heartRateUuid
      ensures connectionState == Disconnected && gatt == None
      ensures groupData == [] && childData == [] && gattCharacteristics == []
      ensures requests == [] && sent == []
    {
      this.heartRateUuid := heartRateUuid;
      connectionState := Disconnected;
      gatt := None;
      groupData, childData, gattCharacteristics := [], [], [];
      requests, sent := [], [];
    }

    /**
     * mBluetoothGatt = mDevice.connectGatt(...), in onStart and on the button.
     * The result (None when connectGatt returns null) replaces the held handle,
     * which is not released; the state is not touched.
     */
    method Connect(handle: Option<GattHandle>)
      modifies this`gatt, this`requests
      ensures gatt == handle
      ensures requests == old(requests) + [ConnectGatt(handle)]
    {
      requests := requests + [ConnectGatt(handle)];
      gatt := handle;
    }

    /**
     * onConnectionStateChange. CONNECTED sets the state, broadcasts and asks the
     * handle to discover services; with a null handle that call throws, so no
     * request is made. DISCONNECTED sets the state and broadcasts. Any other
     * newState changes nothing. The status is not consulted.
     */
    method OnConnectionStateChange(status: int, newState: int)
      modifies this`connectionState, this`requests, this`sent
      ensures connectionState == NextState(old(connectionState), newState)
      ensures newState == PROFILE_STATE_CONNECTED ==>
        sent == old(sent) + [GattConnected] &&
        requests == old(requests) + (if gatt.Some? then [DiscoverServices(gatt.value)] else [])
      ensures newState == PROFILE_STATE_DISCONNECTED ==>
        sent == old(sent) + [GattDisconnected] && requests == old(requests)
      ensures newState != PROFILE_STATE_CONNECTED && newState != PROFILE_STATE_DISCONNECTED ==>
        sent == old(sent) && requests == old(requests)
    {
      if newState == PROFILE_STATE_CONNECTED {
        connectionState := Connected;
        sent := sent + [GattConnected];
        if gatt.Some? {
          requests := requests + [DiscoverServices(gatt.value)];
        }
      } else if newState == PROFILE_STATE_DISCONNECTED {
        connectionState := Disconnected;
        sent := sent + [GattDisconnected];
      }
    }

    /** onServicesDiscovered: broadcasts only on GATT_SUCCESS; a failure is dropped. */
    method OnServicesDiscovered(status: int)
      modifies this`sent
      ensures sent == old(sent) + (if status == GATT_SUCCESS then [ServicesDiscovered] else [])
    {
      if status == GATT_SUCCESS {
        sent := sent + [ServicesDiscovered];
      }
    }

    /** Sends ACTION_DATA_AVAILABLE with the decoded extras; a decode that throws sends nothing. */
    method SendData(c: Characteristic)
      modifies this`sent
      ensures sent == old(sent) + match Decode(heartRateUuid, c)
                                   case None => []
                                   case Some(extras) => [DataAvailable(extras)]
    {
      var extras := BroadcastUpdate(heartRateUuid, c);
      if extras.Some? {
        sent := sent + [DataAvailable(extras.value)];
      }
    }

    /** onCharacteristicRead: decodes and broadcasts only on GATT_SUCCESS. */
    method OnCharacteristicRead(c: Characteristic, status: int)
      modifies this`sent
      ensures status != GATT_SUCCESS ==> sent == old(sent)
      ensures status == GATT_SUCCESS ==>
        sent == old(sent) + match Decode(heartRateUuid, c)
                            case None => []
                            case Some(extras) => [DataAvailable(extras)]
    {
      if status == GATT_SUCCESS {
        SendData(c);
      }
    }

    /** onCharacteristicChanged: every notification is decoded and broadcast. */
    method OnCharacteristicChanged(c: Characteristic)
      modifies this`sent
      ensures sent == old(sent) + match Decode(heartRateUuid, c)
                                   case None => []
                                   case Some(extras) => [DataAvailable(extras)]
    {
      SendData(c);
    }

    /**
     * displayGattServices: a null list changes nothing; otherwise the three
     * tables are emptied and rebuilt from the services alone.
     */
    method DisplayGattServices(gattServices: Option<seq<Service>>)
      requires Valid()
      modifies this`groupData, this`childData, this`gattCharacteristics
      ensures Valid()
      ensures gattServices.None? ==>
        groupData == old(groupData) && childData == old(childData) &&
        gattCharacteristics == old(gattCharacteristics)
      ensures gattServices.Some? ==> Shows(gattServices.value)
    {
      if gattServices.None? {
        return;
      }
      var services := gattServices.value;
      gattCharacteristics := [];
      groupData := [];
      childData := [];
      var i := 0;
      while i < |services|
        invariant 0 <= i <= |services|
        invariant Valid()
        invariant |groupData| == i
        invariant forall k :: 0 <= k < i ==>
          groupData[k] == services[k].uuid && gattCharacteristics[k] == services[k].characteristics
      {
        var service := services[i];
        groupData := groupData + [service.uuid];
        var characteristics := service.characteristics;
        var charas: seq<Characteristic> := [];
        var labels: seq<string> := [];
        var j := 0;
        while j < |characteristics|
          invariant 0 <= j <= |characteristics|
          invariant charas == characteristics[..j]
          invariant |labels| == j
          invariant forall m :: 0 <= m < j ==> labels[m] == CharacteristicLabel(characteristics[m])
        {
          var c := characteristics[j];
          charas := charas + [c];
          var text := c.uuid;
          if c.uuid == COMBINE_DATA_CHAR {
            text := text + " ! ";
          }
          labels := labels + [text];
          j := j + 1;
        }
        assert charas == characteristics;
        gattCharacteristics := gattCharacteristics + [charas];
        childData := childData + [labels];
        i := i + 1;
      }
    }

    /**
     * onChildClick: looks up the clicked characteristic, asks for a read and
     * enables notifications for it. The list view offers only positions that
     * exist in childData. With a null handle the read throws and nothing is asked.
     */
    method OnChildClick(groupPosition: nat, childPosition: nat)
      requires Valid()
      requires groupPosition < |childData| && childPosition < |childData[groupPosition]|
      modifies this`requests
      ensures old(gatt).None? ==> requests == old(requests)
      ensures old(gatt).Some? ==>
        var c := gattCharacteristics[groupPosition][childPosition];
        requests == old(requests) + [ReadCharacteristic(gatt.value, c),
                                     SetCharacteristicNotification(gatt.value, c, true)]
    {
      var c := gattCharacteristics[groupPosition][childPosition];
      if gatt.Some? {
        requests := requests + [ReadCharacteristic(gatt.value, c)];
        requests := requests + [SetCharacteristicNotification(gatt.value, c, true)];
      }
    }

    /** close: releases a held handle and forgets it; with no handle, does nothing. */
    method Close()
      modifies this`gatt, this`requests
      ensures gatt == None
      ensures requests == old(requests) + match old(gatt)
                                          case None => []
                                          case Some(h) => [Release(h)]
    {
      if gatt.None? {
        return;
      }
      requests := requests + [Release(gatt.value)];
      gatt := None;
    }
  }

  /** Closing twice releases the handle at most once: the second close is a no-op. */
  method CloseTwice(session: DeviceSession)
    modifies session`gatt, session`requests
    ensures session.gatt == None
    ensures session.requests == old(session.requests) + match old(session.gatt)
                                                        case None => []
                                                        case Some(h) => [Release(h)]
  {
    session.Close();
    ghost var afterFirst := session.requests;
    session.Close();
    assert session.requests == afterFirst;
  }
}
