/**
 * A virtual-machine stream and its one-shot initialisation: the thread
 * context, device and role are stored, the stream type is looked up from
 * (role, device kind), and that stream type then initialises the stream's
 * device context. The lookup table and InitDeviceCtx's effect are
 * parameters; a ghost trace records the order of the steps.
 */
module VmStream {

  datatype Option<T> = None | Some(value: T)

  /** The DeviceType enumerator of a device (kCPU, kCUDA, ...), by its code. */
  datatype DeviceType = DeviceType(code: nat)

  datatype Device = Device(enumType: DeviceType, deviceId: int)

  /** The StreamRole enumerator, by its code. */
  datatype StreamRole = StreamRole(code: nat)

  /** The StreamType singleton a (role, device kind) pair resolves to. */
  datatype StreamType = StreamType(code: nat)

  datatype ThreadCtx = ThreadCtx(id: nat)

  datatype DeviceCtx = DeviceCtx(handle: nat)

  /** What InitDeviceCtx can see of the stream it is handed. */
  datatype StreamView = StreamView(threadCtx: ThreadCtx, device: Device, role: StreamRole, streamType: StreamType)

  /** StreamRoleSwitch<GetStreamType>: None where the lookup returns an error. */
  type StreamTypeLookup = (StreamRole, DeviceType) -> Option<StreamType>

  /** StreamType::InitDeviceCtx: the new device context from the old one and the stream. */
  type DeviceCtxInit = (StreamType, StreamView, Option<DeviceCtx>) -> Option<DeviceCtx>

  /** The steps of initialisation, as the ghost trace records them. */
  datatype InitEvent = SetThreadCtx | SetDevice | SetStreamRole | SetStreamType | InitDeviceCtx

  /** A complete initialisation, in source order. */
  const InitSequence: seq<InitEvent> := [SetThreadCtx, SetDevice, SetStreamRole, SetStreamType, InitDeviceCtx]

  function Occurrences(trace: seq<InitEvent>, e: InitEvent): nat
  {
    if trace == [] then 0 else (if trace[0] == e then 1 else 0) + Occurrences(trace[1..], e)
  }

  /** The device context is initialised exactly once, after all four fields were set. */
  predicate InitOrdered(trace: seq<InitEvent>)
  {
    && Occurrences(trace, InitDeviceCtx) == 1
    && exists k :: 0 <= k < |trace| && trace[k] == InitDeviceCtx
                   && SetThreadCtx in trace[..k] && SetDevice in trace[..k]
                   && SetStreamRole in trace[..k] && SetStreamType in trace[..k]
  }

  lemma {:induction false} InitSequenceOrdered()
    ensures InitOrdered(InitSequence)
    ensures !InitOrdered(InitSequence[..3])
  {
    var t := InitSequence;
    assert t[4] == InitDeviceCtx;
    assert t[..4] == [SetThreadCtx, SetDevice, SetStreamRole, SetStreamType];
    assert Occurrences(t[4..], InitDeviceCtx) == 1 by {
      assert t[4..][1..] == [];
    }
    assert t[1..][1..][1..][1..] == t[4..];
    var u := InitSequence[..3];
    assert u[1..] == [SetDevice, SetStreamRole];
    assert u[1..][1..] == [SetStreamRole];
    assert u[1..][1..][1..] == [];
    assert Occurrences(u[1..][1..], InitDeviceCtx) == 0;
    assert Occurrences(u[1..], InitDeviceCtx) == 0;
    assert Occurrences(u, InitDeviceCtx) == 0;
  }

  class Stream {
    var threadCtx: Option<ThreadCtx>
    var device: Option<Device>
    var streamRole: Option<StreamRole>
    var streamType: Option<StreamType>
    var deviceCtx: Option<DeviceCtx>
    ghost var trace: seq<InitEvent>

    /** A stream before __Init__: nothing bound. */
    constructor ()
      ensures threadCtx == None && device == None && streamRole == None
      ensures streamType == None && deviceCtx == None
      ensures trace == []
    {
      threadCtx := None;
      device := None;
      streamRole := None;
      streamType := None;
      deviceCtx := None;
      trace := [];
    }

    /**
     * Stream::__Init__. A failed lookup is fatal in the source (CHECK_JUST);
     * here it returns false, with the three fields it already set and
     * neither the stream type nor the device context touched.
     */
    method Init(tc: ThreadCtx, d: Device, role: StreamRole,
                lookup: StreamTypeLookup, initCtx: DeviceCtxInit) returns (ok: bool)
      modifies this
      ensures threadCtx == Some(tc) && device == Some(d) && streamRole == Some(role)
      ensures ok <==> lookup(role, d.enumType).Some?
      ensures ok ==> && streamType == lookup(role, d.enumType)
                     && deviceCtx == initCtx(streamType.value, StreamView(tc, d, role, streamType.value), old(deviceCtx))
                     && trace == old(trace) + InitSequence
      ensures !ok ==> && streamType == old(streamType) && deviceCtx == old(deviceCtx)
                      && trace == old(trace) + InitSequence[..3]
    {
      threadCtx := Some(tc);
      trace := trace + [SetThreadCtx];
      device := Some(d);
      trace := trace + [SetDevice];
      streamRole := Some(role);
      trace := trace + [SetStreamRole];
      var found := lookup(role, d.enumType);
      if found.None? {
        return false;
      }
      streamType := found;
      trace := trace + [SetStreamType];
      deviceCtx := initCtx(found.value, StreamView(tc, d, role, found.value), deviceCtx);
      trace := trace + [InitDeviceCtx];
      return true;
    }

    /** Stream::device_id: the bound device's id (the device must be bound). */
    function DeviceId(): (id: int)
      reads this
      requires device.Some?
      ensures device == Some(Device(device.value.enumType, id))
    {
      device.value.deviceId
    }

    /** Stream::stream_type: the stream type resolved by Init (it must be resolved). */
    function StreamTypeOf(): (t: StreamType)
      reads this
      requires streamType.Some?
      ensures streamType == Some(t)
    {
      streamType.value
    }
  }

  /**
   * A fresh stream, initialised and then queried: Init succeeds exactly when
   * the lookup does; then device_id is the device's id, stream_type is the
   * looked-up type, and the device context was initialised exactly once,
   * after every field was set.
   */
  method InitAndQuery(tc: ThreadCtx, d: Device, role: StreamRole,
                      lookup: StreamTypeLookup, initCtx: DeviceCtxInit)
    returns (ok: bool, deviceId: int, streamType: Option<StreamType>, ghost trace: seq<InitEvent>)
    ensures ok <==> lookup(role, d.enumType).Some?
    ensures ok ==> deviceId == d.deviceId && streamType == lookup(role, d.enumType)
    ensures ok ==> InitOrdered(trace)
    ensures !ok ==> !InitOrdered(trace)
  {
    var s := new Stream();
    ok := s.Init(tc, d, role, lookup, initCtx);
    trace := s.trace;
    InitSequenceOrdered();
    assert ok ==> trace == InitSequence;
    assert !ok ==> trace == InitSequence[..3];
    if ok {
      deviceId := s.DeviceId();
      streamType := Some(s.StreamTypeOf());
    } else {
      deviceId := 0;
      streamType := None;
    }
  }
}
