/** The read-only view of the Jacdac bus that the debug configuration provider
    queries: devices, their services, and the three lookups it performs
    (`devices({ serviceClass })`, `device(id, true)`, `services({ serviceClass })`)
    plus the array helpers `find` and `indexOf` used on their results. */
module Jacdac {
  import opened Wrappers

  /** Service class of the DeviceScript manager service. */
  const SRV_DEVICE_SCRIPT_MANAGER: int := 0x1134ea2b

  /** A service announced by a device. `index` is its Jacdac service index on
      that device (0 is the control service, which is not listed here). The
      model assumes the indices of one device's services are distinct, so
      value equality stands for the object identity that `indexOf` compares. */
  datatype Service = Service(index: nat, serviceClass: int)

  /** A device on the bus: its long stable identifier, its four-character
      short identifier and its services in announcement order. */
  datatype Device = Device(deviceId: string, shortId: string, services: seq<Service>)

  /** `device.services({ serviceClass })`: the services of one class, in order. */
  function ServicesOfClass(ss: seq<Service>, serviceClass: int): (r: seq<Service>)
    ensures |r| <= |ss|
    ensures forall s {:trigger s in r} :: s in r <==> s in ss && s.serviceClass == serviceClass
  {
    if ss == [] then []
    else if ss[0].serviceClass == serviceClass then [ss[0]] + ServicesOfClass(ss[1..], serviceClass)
    else ServicesOfClass(ss[1..], serviceClass)
  }

  /** `services({ serviceClass })` drops no service of the class and repeats
      none: a service of the class occurs in the result exactly as often as
      on the device, any other service not at all. */
  lemma {:induction false} ServicesOfClassCount(ss: seq<Service>, serviceClass: int, s: Service)
    ensures multiset(ServicesOfClass(ss, serviceClass))[s]
            == if s.serviceClass == serviceClass then multiset(ss)[s] else 0
  {
    if ss != [] {
      ServicesOfClassCount(ss[1..], serviceClass, s);
      assert ss == [ss[0]] + ss[1..];
    }
  }

  /** Filtering a concatenation filters each part. */
  lemma {:induction false} ServicesOfClassAppend(x: seq<Service>, y: seq<Service>, serviceClass: int)
    ensures ServicesOfClass(x + y, serviceClass) == ServicesOfClass(x, serviceClass) + ServicesOfClass(y, serviceClass)
  {
    if x == [] {
      assert x + y == y;
    } else {
      var head := if x[0].serviceClass == serviceClass then [x[0]] else [];
      assert (x + y)[0] == x[0] && (x + y)[1..] == x[1..] + y;
      calc {
        ServicesOfClass(x + y, serviceClass);
        head + ServicesOfClass(x[1..] + y, serviceClass);
        { ServicesOfClassAppend(x[1..], y, serviceClass); }
        head + (ServicesOfClass(x[1..], serviceClass) + ServicesOfClass(y, serviceClass));
        (head + ServicesOfClass(x[1..], serviceClass)) + ServicesOfClass(y, serviceClass);
      }
    }
  }

  /** `services({ serviceClass })` keeps the device's order: a service of the
      class at position `j` sits in the result right after the services of
      the class that come before it. */
  lemma ServicesOfClassPosition(ss: seq<Service>, serviceClass: int, j: int)
    requires 0 <= j < |ss| && ss[j].serviceClass == serviceClass
    ensures var n := |ServicesOfClass(ss[..j], serviceClass)|;
            n < |ServicesOfClass(ss, serviceClass)| && ServicesOfClass(ss, serviceClass)[n] == ss[j]
  {
    var before, after := ServicesOfClass(ss[..j], serviceClass), ServicesOfClass(ss[j + 1..], serviceClass);
    assert ss == ss[..j] + ([ss[j]] + ss[j + 1..]);
    ServicesOfClassAppend([ss[j]], ss[j + 1..], serviceClass);
    assert ServicesOfClass([ss[j]], serviceClass) == [ss[j]];
    ServicesOfClassAppend(ss[..j], [ss[j]] + ss[j + 1..], serviceClass);
    assert ServicesOfClass(ss, serviceClass) == before + ([ss[j]] + after);
  }

  predicate HasService(d: Device, serviceClass: int) {
    ServicesOfClass(d.services, serviceClass) != []
  }

  /** `bus.devices({ serviceClass })`: the devices hosting at least one
      service of the class, in bus order. */
  function DevicesWithService(bus: seq<Device>, serviceClass: int): (r: seq<Device>)
    ensures |r| <= |bus|
    ensures forall d :: d in r <==> d in bus && HasService(d, serviceClass)
  {
    if bus == [] then []
    else if HasService(bus[0], serviceClass) then [bus[0]] + DevicesWithService(bus[1..], serviceClass)
    else DevicesWithService(bus[1..], serviceClass)
  }

  /** `ds.find(p)`: the first device satisfying `p`, if any (see FindFirst). */
  function Find(ds: seq<Device>, p: Device -> bool): (r: Option<Device>)
    ensures r.None? <==> forall k :: 0 <= k < |ds| ==> !p(ds[k])
    ensures r.Some? ==> r.value in ds && p(r.value)
  {
    if ds == [] then None
    else if p(ds[0]) then Some(ds[0])
    else Find(ds[1..], p)
  }

  /** `k` is the position of the first element of `ds` satisfying `p`. */
  predicate IsFirst(ds: seq<Device>, p: Device -> bool, k: int) {
    0 <= k < |ds| && p(ds[k]) && forall j :: 0 <= j < k ==> !p(ds[j])
  }

  /** `find` returns the first device satisfying `p`, in sequence order. */
  lemma {:induction false} FindFirst(ds: seq<Device>, p: Device -> bool, k: int)
    requires IsFirst(ds, p, k)
    ensures Find(ds, p) == Some(ds[k])
  {
    if k > 0 {
      FindFirst(ds[1..], p, k - 1);
    }
  }

  /** `bus.device(id, true)`: the device with that long identifier, never
      created on demand. */
  function DeviceById(bus: seq<Device>, id: string): (r: Option<Device>)
    ensures r.None? <==> forall k :: 0 <= k < |bus| ==> bus[k].deviceId != id
    ensures r.Some? ==> r.value in bus && r.value.deviceId == id
  {
    Find(bus, (d: Device) => d.deviceId == id)
  }

  /** `ss.indexOf(x)`: the position of the first occurrence of `x`, or -1. */
  function IndexOf(ss: seq<Service>, x: Service): (r: int)
    ensures -1 <= r < |ss|
    ensures r == -1 <==> x !in ss
    ensures 0 <= r ==> ss[r] == x && x !in ss[..r]
  {
    if ss == [] then -1
    else if ss[0] == x then 0
    else
      var r := IndexOf(ss[1..], x);
      if r == -1 then -1
      else
        assert ss[1..][..r] == ss[1..r + 1];
        r + 1
  }

  /** Searching the filtered list `DevicesWithService(bus, c)` with `p` finds
      the same device as searching the whole bus with `q`, when `q` accepts
      exactly the devices that host the class and satisfy `p`: the filter
      keeps bus order. */
  lemma {:induction false} FindAfterFilter(bus: seq<Device>, serviceClass: int, p: Device -> bool, q: Device -> bool)
    requires forall d :: q(d) == (HasService(d, serviceClass) && p(d))
    ensures Find(DevicesWithService(bus, serviceClass), p) == Find(bus, q)
  {
    if bus != [] {
      FindAfterFilter(bus[1..], serviceClass, p, q);
      var rest := DevicesWithService(bus[1..], serviceClass);
      if HasService(bus[0], serviceClass) {
        assert ([bus[0]] + rest)[1..] == rest;
      }
    }
  }
}
