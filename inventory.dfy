/**
 * Device inventory (InventoryManager.java): flight counters, model and
 * firmware, and CPU ids of the drone and the controller, as last reported.
 * Each update stamps its group with the wall-clock time, a parameter here.
 */
module Inventory {
  import opened Common
  import opened DeviceTypes
  import VersionCodec

  /** A `Count` message: flight time and the take-off, landing and accident counters. */
  datatype Count = Count(timeFlight: int, countTakeOff: int, countLanding: int, countAccident: int)

  /**
   * An `Information` message: the model number's value (its upper byte
   * names the device) and the firmware version, if any. `None` as a model
   * stands for `ModelNumber.NONE_`.
   */
  datatype Information = Information(modelNumber: int, version: Option<VersionCodec.Version>)

  /** An element of the mixed `Object[]` arrays. */
  datatype Element = Real(r: real) | Int(i: int) | Text(s: string) | Model(m: Option<int>)

  datatype CountData = CountData(timestamp: real, flightTime: int, takeoffCount: int, landingCount: int, accidentCount: int)

  datatype InformationData = InformationData(timestamp: real, droneModel: Option<int>, droneFirmware: string,
    controllerModel: Option<int>, controllerFirmware: string)

  datatype CpuIdData = CpuIdData(timestamp: real, droneCpuId: string, controllerCpuId: string)

  /** `(modelNumber >> 8) & 0xFF` on the `int` value: bits 8..15 of its two's complement. */
  function DeviceByte(modelNumber: int): (b: Byte)
    requires IsInt(modelNumber)
  {
    ((modelNumber + 0x1_0000_0000) % 0x1_0000_0000 / 0x100) % 0x100
  }

  /** `formatFirmwareVersion`: "" without a version, else "major.minor.build". */
  function FormatFirmwareVersion(version: Option<VersionCodec.Version>): (s: string)
    ensures version.None? <==> s == ""
  {
    if version.None? then "" else VersionCodec.ToString(version.value)
  }

  /** Seconds since the epoch, from `System.currentTimeMillis() / 1000.0`. */
  function Seconds(nowMillis: int): real
  {
    nowMillis as real / 1000.0
  }

  class InventoryManager {
    var countTimestamp: real
    var flightTime: int
    var takeoffCount: int
    var landingCount: int
    var accidentCount: int

    var informationTimestamp: real
    var droneModel: Option<int>
    var droneFirmware: string
    var controllerModel: Option<int>
    var controllerFirmware: string

    var cpuIdTimestamp: real
    var droneCpuId: string
    var controllerCpuId: string

    /** Nothing reported yet: zero counters and timestamps, no models, empty strings. */
    constructor ()
      ensures CountDataArray() == [Real(0.0), Int(0), Int(0), Int(0), Int(0)]
      ensures InformationDataObject() == InformationData(0.0, None, "", None, "")
      ensures CpuIdDataObject() == CpuIdData(0.0, "", "")
    {
      countTimestamp, flightTime, takeoffCount, landingCount, accidentCount := 0.0, 0, 0, 0, 0;
      informationTimestamp, droneModel, droneFirmware, controllerModel, controllerFirmware := 0.0, None, "", None, "";
      cpuIdTimestamp, droneCpuId, controllerCpuId := 0.0, "", "";
    }

    /** `updateCount(count)`: null changes nothing; otherwise all four counters and the time are overwritten. */
    method UpdateCount(count: Option<Count>, nowMillis: int)
      modifies this
      ensures count.None? ==> CountDataObject() == old(CountDataObject())
      ensures count.Some? ==> CountDataObject() == CountData(Seconds(nowMillis), count.value.timeFlight,
        count.value.countTakeOff, count.value.countLanding, count.value.countAccident)
      ensures InformationDataObject() == old(InformationDataObject()) && CpuIdDataObject() == old(CpuIdDataObject())
    {
      if count.Some? {
        countTimestamp := Seconds(nowMillis);
        flightTime := count.value.timeFlight;
        takeoffCount := count.value.countTakeOff;
        landingCount := count.value.countLanding;
        accidentCount := count.value.countAccident;
      }
    }

    /**
     * `updateInformation(information)`: null changes nothing. Otherwise the
     * time is stamped and the model's device byte picks the slot: a drone's
     * or the controller's model and firmware are overwritten, any other
     * device is ignored, and a byte no device carries throws (after the
     * time was stamped).
     */
    method UpdateInformation(information: Option<Information>, nowMillis: int) returns (error: Option<Exception>)
      requires information.Some? ==> IsInt(information.value.modelNumber)
      modifies this
      ensures information.None? ==> error.None? && InformationDataObject() == old(InformationDataObject())
      ensures information.Some? ==>
        var info := information.value;
        var device := FromByte(DeviceByte(info.modelNumber));
        var stamped := old(InformationDataObject()).(timestamp := Seconds(nowMillis));
        && (device.None? ==> error.Some? && error.value.IllegalArgument? && InformationDataObject() == stamped)
        && (device == Some(Drone) ==>
              error.None? && InformationDataObject() ==
              stamped.(droneModel := Some(info.modelNumber), droneFirmware := FormatFirmwareVersion(info.version)))
        && (device == Some(Controller) ==>
              error.None? && InformationDataObject() ==
              stamped.(controllerModel := Some(info.modelNumber), controllerFirmware := FormatFirmwareVersion(info.version)))
        && (device.Some? && device.value !in {Drone, Controller} ==> error.None? && InformationDataObject() == stamped)
      ensures CountDataObject() == old(CountDataObject()) && CpuIdDataObject() == old(CpuIdDataObject())
    {
      error := None;
      if information.Some? {
        informationTimestamp := Seconds(nowMillis);
        var deviceTypeByte := DeviceByte(information.value.modelNumber);
        var deviceType := FromByte(deviceTypeByte);
        if deviceType.None? {
          return Some(IllegalArgument("No DeviceType found for byte value: " + IntString(Signed8(deviceTypeByte))));
        }
        if deviceType.value == Drone {
          droneModel := Some(information.value.modelNumber);
          droneFirmware := FormatFirmwareVersion(information.value.version);
        } else if deviceType.value == Controller {
          controllerModel := Some(information.value.modelNumber);
          controllerFirmware := FormatFirmwareVersion(information.value.version);
        }
      }
    }

    /**
     * `updateCpuId(cpuId, deviceType)`: a null id changes nothing;
     * otherwise the time is stamped and only the named device's id is written.
     */
    method UpdateCpuId(cpuId: Option<string>, deviceType: DeviceType, nowMillis: int)
      modifies this
      ensures cpuId.None? ==> CpuIdDataObject() == old(CpuIdDataObject())
      ensures cpuId.Some? ==>
        var stamped := old(CpuIdDataObject()).(timestamp := Seconds(nowMillis));
        CpuIdDataObject() ==
          if deviceType == Drone then stamped.(droneCpuId := cpuId.value)
          else if deviceType == Controller then stamped.(controllerCpuId := cpuId.value)
          else stamped
      ensures CountDataObject() == old(CountDataObject()) && InformationDataObject() == old(InformationDataObject())
    {
      if cpuId.Some? {
        cpuIdTimestamp := Seconds(nowMillis);
        if deviceType == Drone {
          droneCpuId := cpuId.value;
        } else if deviceType == Controller {
          controllerCpuId := cpuId.value;
        }
      }
    }

    /** `getCountDataArray()`: [timestamp, flight time, take-offs, landings, accidents]. */
    function CountDataArray(): (a: seq<Element>)
      reads this
      ensures |a| == 5
    {
      [Real(countTimestamp), Int(flightTime), Int(takeoffCount), Int(landingCount), Int(accidentCount)]
    }

    /** `getInformationDataArray()`: [timestamp, drone model, drone firmware, controller model, controller firmware]. */
    function InformationDataArray(): (a: seq<Element>)
      reads this
      ensures |a| == 5
    {
      [Real(informationTimestamp), Model(droneModel), Text(droneFirmware), Model(controllerModel), Text(controllerFirmware)]
    }

    /** `getCpuIdDataArray()`: [timestamp, drone id, controller id]. */
    function CpuIdDataArray(): (a: seq<Element>)
      reads this
      ensures |a| == 3
    {
      [Real(cpuIdTimestamp), Text(droneCpuId), Text(controllerCpuId)]
    }

    function CountDataObject(): CountData
      reads this
    {
      CountData(countTimestamp, flightTime, takeoffCount, landingCount, accidentCount)
    }

    function InformationDataObject(): InformationData
      reads this
    {
      InformationData(informationTimestamp, droneModel, droneFirmware, controllerModel, controllerFirmware)
    }

    function CpuIdDataObject(): CpuIdData
      reads this
    {
      CpuIdData(cpuIdTimestamp, droneCpuId, controllerCpuId)
    }
  }

  /** The count array read back in its documented order. */
  function CountFromArray(a: seq<Element>): Option<CountData>
  {
    if |a| == 5 && a[0].Real? && a[1].Int? && a[2].Int? && a[3].Int? && a[4].Int? then
      Some(CountData(a[0].r, a[1].i, a[2].i, a[3].i, a[4].i))
    else None
  }

  /** The information array read back in its documented order. */
  function InformationFromArray(a: seq<Element>): Option<InformationData>
  {
    if |a| == 5 && a[0].Real? && a[1].Model? && a[2].Text? && a[3].Model? && a[4].Text? then
      Some(InformationData(a[0].r, a[1].m, a[2].s, a[3].m, a[4].s))
    else None
  }

  /** The cpu-id array read back in its documented order. */
  function CpuIdFromArray(a: seq<Element>): Option<CpuIdData>
  {
    if |a| == 3 && a[0].Real? && a[1].Text? && a[2].Text? then Some(CpuIdData(a[0].r, a[1].s, a[2].s)) else None
  }

  /** Each array view, read in its documented order, is exactly the matching object view. */
  lemma ArraysMirrorObjects(m: InventoryManager)
    ensures CountFromArray(m.CountDataArray()) == Some(m.CountDataObject())
    ensures InformationFromArray(m.InformationDataArray()) == Some(m.InformationDataObject())
    ensures CpuIdFromArray(m.CpuIdDataArray()) == Some(m.CpuIdDataObject())
  {
  }

  /**
   * The device byte is bits 8..15 of a model number: `high * 256 + low` has
   * byte `high % 256`, which routes 0x10 to the drone slot and 0x20 to the
   * controller slot.
   */
  lemma DeviceByteRoutes(high: int, low: int)
    requires 0 <= high < 0x80_0000 && 0 <= low < 256
    ensures DeviceByte(high * 256 + low) == high % 256
    ensures high % 256 == 0x10 ==> FromByte(DeviceByte(high * 256 + low)) == Some(Drone)
    ensures high % 256 == 0x20 ==> FromByte(DeviceByte(high * 256 + low)) == Some(Controller)
  {
    var v := high * 256 + low;
    assert (v + 0x1_0000_0000) % 0x1_0000_0000 == v;
    assert v / 256 == high;
  }

  /** The CoDrone EDU model numbers (Drone_3 and Drone_4 families) reach the slot their kind names. */
  lemma ModelNumbersRoute()
    ensures FromByte(DeviceByte(0x0003_1001)) == Some(Drone) && FromByte(DeviceByte(0x0003_100A)) == Some(Drone)
    ensures FromByte(DeviceByte(0x0004_1007)) == Some(Drone)
    ensures FromByte(DeviceByte(0x0003_2001)) == Some(Controller) && FromByte(DeviceByte(0x0004_2004)) == Some(Controller)
  {
    DeviceByteRoutes(0x310, 0x01);
    DeviceByteRoutes(0x310, 0x0A);
    DeviceByteRoutes(0x410, 0x07);
    DeviceByteRoutes(0x320, 0x01);
    DeviceByteRoutes(0x420, 0x04);
  }
}
