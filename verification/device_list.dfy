/** The `GET /devices` listing: the registry's ids and how many there are. */
module DeviceList {
  import opened Devices

  /** The JSON reply `{count, devices}`. */
  datatype Listing = Listing(count: nat, devices: seq<DeviceId>)

  predicate Distinct(s: seq<DeviceId>) {
    forall i, j | 0 <= i < j < |s| :: s[i] != s[j]
  }

  /** Collects `Object.keys(devices)`: every id of the registry exactly once, and the
      count of them. The order of the ids is left open. */
  method ListDevices(reg: Registry) returns (r: Listing)
    ensures forall i | 0 <= i < |r.devices| :: r.devices[i] in reg
    ensures forall k | k in reg :: k in r.devices
    ensures Distinct(r.devices)
    ensures r.count == |r.devices| == |reg|
  {
    var remaining := reg.Keys;
    var ids: seq<DeviceId> := [];
    while remaining != {}
      invariant remaining <= reg.Keys
      invariant forall i | 0 <= i < |ids| :: ids[i] in reg && ids[i] !in remaining
      invariant forall k | k in reg :: k in remaining || k in ids
      invariant Distinct(ids)
      invariant |ids| + |remaining| == |reg.Keys|
      decreases |remaining|
    {
      var k :| k in remaining;
      ids := ids + [k];
      remaining := remaining - {k};
    }
    r := Listing(|ids|, ids);
  }
}
