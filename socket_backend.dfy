/** The socket recording backend: a spike detector enrols with it, and every spike
    it records is sent as one text datagram to a configured address and port. */
module SocketBackend {
  import opened Exceptions
  import opened Dictionary
  import opened SpikeMessage

  // ---------------------------------------------------------------------------
  // Parameters: the address and port a future enrolment will send to.
  // ---------------------------------------------------------------------------

  datatype Parameters = Parameters(ip: string, port: Long)

  /** The entries `set_status` accepts: each key absent or holding its own kind of value. */
  predicate WellTyped(d: Dict) {
    && ("ip" in d ==> d["ip"].StringValue?)
    && ("port" in d ==> d["port"].IntValue?)
  }

  /** `Parameters_::get`: write both fields into d, leaving its other entries alone. */
  function ParametersGet(p: Parameters, d: Dict): (r: Dict)
    ensures r.Keys == d.Keys + {"ip", "port"}
    ensures r["ip"] == StringValue(p.ip) && r["port"] == IntValue(p.port)
    ensures forall k :: k in d && k != "ip" && k != "port" ==> r[k] == d[k]
  {
    d["ip" := StringValue(p.ip)]["port" := IntValue(p.port)]
  }

  /** `Parameters_::set` on a copy: update `ip`, then `port`; the first entry of
      the wrong type raises, and the partly updated copy is then discarded. */
  function ParametersSet(p: Parameters, d: Dict): (r: Result<Parameters>)
    ensures r.Success? <==> WellTyped(d)
    ensures r.Success? ==> r.value.ip == (if "ip" in d then d["ip"].s else p.ip)
    ensures r.Success? ==> r.value.port == (if "port" in d then d["port"].i else p.port)
    ensures r.Failure? ==> r.error == TypeMismatch(if "ip" in d && !d["ip"].StringValue? then "ip" else "port")
  {
    match UpdateString(d, "ip", p.ip)
    case Failure(e) => Failure(e)
    case Success(ip) =>
      var q := p.(ip := ip);
      match UpdateLong(d, "port", q.port)
      case Failure(e) => Failure(e)
      case Success(port) => Success(q.(port := port))
  }

  /** Reading the status back after a successful update gives the values just set,
      and the old value of any key the update did not name. */
  lemma SetThenGet(p: Parameters, d: Dict, out: Dict)
    requires ParametersSet(p, d).Success?
    ensures var g := ParametersGet(ParametersSet(p, d).value, out);
      && g["ip"] == (if "ip" in d then d["ip"] else StringValue(p.ip))
      && g["port"] == (if "port" in d then d["port"] else IntValue(p.port))
  {
  }

  /** Feeding a status read back into an update reproduces the parameters read,
      whatever the parameters it is applied to. */
  lemma GetThenSet(p: Parameters, q: Parameters, d: Dict)
    ensures ParametersSet(q, ParametersGet(p, d)) == Success(p)
  {
  }

  /** Applying the same update twice is the same as applying it once. */
  lemma SetIdempotent(p: Parameters, d: Dict)
    requires ParametersSet(p, d).Success?
    ensures ParametersSet(ParametersSet(p, d).value, d) == ParametersSet(p, d)
  {
  }

  // ---------------------------------------------------------------------------
  // The channel: an abstract datagram socket and the address it sends to.
  // ---------------------------------------------------------------------------

  /** The resolved destination: the address text and the 16-bit port. */
  datatype Dest = Dest(ip: string, port: nat)

  /** The destination an enrolment derives from the parameters: the port goes
      through a conversion to a 16-bit unsigned value, so it is taken modulo 2^16. */
  function Destination(p: Parameters): (r: Dest)
    ensures r.ip == p.ip
    ensures r.port < 0x1_0000
    ensures (r.port - p.port as int) % 0x1_0000 == 0
    ensures 0 <= p.port < 0x1_0000 ==> r.port == p.port as int
  {
    Dest(p.ip, (p.port as int) % 0x1_0000)
  }

  /** Unbound: no socket allocated yet. Bound: the socket handle the last
      enrolment allocated and the destination it resolved then. */
  datatype Channel = Unbound | Bound(socket: nat, dest: Dest)

  /** One send attempt: the channel it went out on and its payload. */
  datatype Datagram = Datagram(channel: Channel, payload: string)

  // ---------------------------------------------------------------------------
  // Devices and events as the host engine presents them.
  // ---------------------------------------------------------------------------

  /** The device types of the engine; only spike detectors are accepted. */
  datatype DeviceType = SpikeDetector | OtherDevice(name: string)

  datatype Device = Device(kind: DeviceType, gid: nat)

  /** An event, reduced to the id of the node that sent it. */
  datatype Event = Event(senderGid: nat)

  const OnlySpikeDetectors: string := "Only spike detectors can record to recording backend >Socket<"

  const DefaultIp: string := "127.0.0.1"
  const DefaultPort: Long := 50000

  // ---------------------------------------------------------------------------
  // The backend.
  // ---------------------------------------------------------------------------

  class RecordingBackendSocket {
    /** The live parameters (`P_`). */
    var params: Parameters
    /** The socket and destination of the last enrolment (`B_`). */
    var channel: Channel
    /** How many sockets have been allocated; none is ever closed. */
    var socketCount: nat
    /** Every datagram handed to the network, in order. */
    var outbox: seq<Datagram>

    /** The current handle is the last one allocated, or there is none. */
    ghost predicate Valid()
      reads this
    {
      match channel
      case Unbound => socketCount == 0
      case Bound(socket, _) => socket + 1 == socketCount
    }

    /** A new backend holds the default parameters and no socket. */
    constructor ()
      ensures Valid()
      ensures params == Parameters(DefaultIp, DefaultPort)
      ensures channel == Unbound && socketCount == 0 && outbox == []
    {
      params := Parameters(DefaultIp, DefaultPort);
      channel := Unbound;
      socketCount := 0;
      outbox := [];
    }

    /** Enrol a device: a spike detector gets the current parameters resolved into
        the destination and a freshly allocated socket; any other device raises
        and changes nothing. The value names are not used. */
    method Enroll(device: Device, doubleValueNames: seq<string>, longValueNames: seq<string>)
      returns (r: Outcome)
      requires Valid()
      modifies this`channel, this`socketCount
      ensures Valid()
      ensures r.Pass? <==> device.kind == SpikeDetector
      ensures r.Pass? ==> channel == Bound(old(socketCount), Destination(params))
      ensures r.Pass? ==> socketCount == old(socketCount) + 1
      ensures r.Fail? ==> r.error == BadProperty(OnlySpikeDetectors)
      ensures r.Fail? ==> channel == old(channel) && socketCount == old(socketCount)
    {
      if device.kind == SpikeDetector {
        var dest := Destination(params);
        var socket := socketCount;
        socketCount := socketCount + 1;
        channel := Bound(socket, dest);
        r := Pass;
      } else {
        r := Fail(BadProperty(OnlySpikeDetectors));
      }
    }

    /** Record one event: for a spike detector, one message naming the detector and
        the sender goes out on the current channel and no send failure is reported;
        for any other device the call raises and nothing is sent. */
    method Write(device: Device, event: Event, doubleValues: seq<real>, longValues: seq<Long>)
      returns (r: Outcome)
      requires Valid()
      modifies this`outbox
      ensures Valid()
      ensures r.Pass? <==> device.kind == SpikeDetector
      ensures r.Pass? ==> outbox == old(outbox) + [Datagram(channel, FormatMessage(device.gid, event.senderGid))]
      ensures r.Fail? ==> r.error == BareRethrow && outbox == old(outbox)
    {
      if device.kind == SpikeDetector {
        var msg := FormatMessage(device.gid, event.senderGid);
        outbox := outbox + [Datagram(channel, msg)];
        r := Pass;
      } else {
        r := Fail(BareRethrow);
      }
    }

    /** Update the parameters from d on a copy, and commit the copy only when the
        whole update succeeded. The channel keeps the destination it was enrolled with. */
    method SetStatus(d: Dict) returns (r: Outcome)
      requires Valid()
      modifies this`params
      ensures Valid()
      ensures r.Pass? <==> WellTyped(d)
      ensures r.Pass? ==> params == ParametersSet(old(params), d).value
      ensures r.Fail? ==> params == old(params) && r == Fail(ParametersSet(old(params), d).error)
    {
      var ptmp := params;
      var updated := ParametersSet(ptmp, d);
      match updated
      case Failure(e) =>
        r := Fail(e);
      case Success(p) =>
        params := p;
        r := Pass;
    }

    /** Write the current parameters into d; nothing in the backend changes. */
    method GetStatus(d: Dict) returns (r: Dict)
      ensures r == ParametersGet(params, d)
      ensures r["ip"] == StringValue(params.ip) && r["port"] == IntValue(params.port)
    {
      r := ParametersGet(params, d);
    }

    /** The lifecycle hooks do nothing. */
    method PreRunHook()
      requires Valid()
      modifies this
      ensures Valid() && unchanged(this)
    {
    }

    method PostRunHook()
      requires Valid()
      modifies this
      ensures Valid() && unchanged(this)
    {
    }

    /** Closes nothing: the socket stays allocated, and a second call is as harmless as the first. */
    method Cleanup()
      requires Valid()
      modifies this
      ensures Valid() && unchanged(this)
    {
    }

    method Synchronize()
      requires Valid()
      modifies this
      ensures Valid() && unchanged(this)
    {
    }

    method Prepare()
      requires Valid()
      modifies this
      ensures Valid() && unchanged(this)
    {
    }

    method Clear(device: Device)
      requires Valid()
      modifies this
      ensures Valid() && unchanged(this)
    {
    }

    method SetDeviceStatus(device: Device, d: Dict)
      requires Valid()
      modifies this
      ensures Valid() && unchanged(this)
    {
    }

    /** Leaves the caller's dictionary as it was. */
    method GetDeviceStatus(device: Device, d: Dict) returns (r: Dict)
      ensures r == d
    {
      r := d;
    }
  }

  // ---------------------------------------------------------------------------
  // Uses of the backend as the engine drives it.
  // ---------------------------------------------------------------------------

  /** A spike detector with id 7 enrolled on a new backend records a spike of node 42:
      exactly one datagram, on the first socket, to the default endpoint. */
  method SpikeToDefaultEndpoint() returns (sent: seq<Datagram>)
    ensures sent == [Datagram(Bound(0, Dest("127.0.0.1", 50000)), "spike_detector 7 got a spike by node 42")]
  {
    var backend := new RecordingBackendSocket();
    var detector := Device(SpikeDetector, 7);
    var enrolled := backend.Enroll(detector, [], []);
    var written := backend.Write(detector, Event(42), [], []);
    FormatMessageExample();
    sent := backend.outbox;
  }

  /** Reconfiguring after enrolment changes what the status reports but not where
      datagrams go, and a rejected device neither enrols nor sends, even after cleanup. */
  method ReconfigureAfterEnroll(d: Dict, other: Device) returns (before: Channel, after: Channel, status: Dict, final: Channel, count: nat, sent: seq<Datagram>)
    requires other.kind != SpikeDetector
    ensures before == after == Bound(0, Dest(DefaultIp, 50000))
    ensures status.Keys == {"ip", "port"}
    ensures WellTyped(d) ==> status["ip"] == (if "ip" in d then d["ip"] else StringValue(DefaultIp))
    ensures WellTyped(d) ==> status["port"] == (if "port" in d then d["port"] else IntValue(DefaultPort))
    ensures !WellTyped(d) ==> status["ip"] == StringValue(DefaultIp) && status["port"] == IntValue(DefaultPort)
    ensures final == after && count == 1
    ensures sent == []
  {
    var backend := new RecordingBackendSocket();
    var enrolled := backend.Enroll(Device(SpikeDetector, 1), [], []);
    before := backend.channel;
    var updated := backend.SetStatus(d);
    after := backend.channel;
    status := backend.GetStatus(map[]);
    var rejected := backend.Enroll(other, [], []);
    var refused := backend.Write(other, Event(3), [], []);
    backend.Cleanup();
    backend.Cleanup();
    final := backend.channel;
    count := backend.socketCount;
    sent := backend.outbox;
  }
}
