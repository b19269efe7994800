/**
  Request helpers: the client address behind a proxy, and the short-circuit that keeps local
  addresses away from the geolocation lookup.
 */
module Utils {
  import opened Collections

  /**
    `get_ip`: the text before the first comma of the X-Forwarded-For header when that header
    is present and non-empty, otherwise REMOTE_ADDR (which may itself be absent). The segment
    is not trimmed.
   */
  function GetIp(forwardedFor: Option<string>, remoteAddr: Option<string>): (r: Option<string>)
    ensures forwardedFor.None? || forwardedFor == Some("") ==> r == remoteAddr
    ensures forwardedFor.Some? && forwardedFor.value != "" ==>
            && r.Some?
            && ',' !in r.value
            && r.value <= forwardedFor.value
            && (|r.value| < |forwardedFor.value| ==> forwardedFor.value[|r.value|] == ',')
    ensures forwardedFor.Some? && forwardedFor.value != "" && ',' !in forwardedFor.value ==>
            r == forwardedFor
  {
    if forwardedFor.Some? && |forwardedFor.value| > 0 then
      Some(Split(forwardedFor.value, ',')[0])
    else remoteAddr
  }

  /**
    When the first comma of the header is at index `k`, the result is exactly the `k`
    characters before it, whitespace included.
   */
  lemma {:induction false} GetIpFirstComma(header: string, k: nat, remoteAddr: Option<string>)
    requires k < |header| && header[k] == ','
    requires forall j :: 0 <= j < k ==> header[j] != ','
    ensures GetIp(Some(header), remoteAddr) == Some(header[..k])
  {
    var r := GetIp(Some(header), remoteAddr).value;
    assert r == header[..k];
  }

  /** The outcome of locating an address: the default coordinates, or what the lookup gave. */
  datatype Coordinates = DefaultCoordinates | LookedUp(loc: string)

  predicate IsLocalAddress(ip: Option<string>)
  {
    ip == Some("127.0.0.1") || ip == Some("localhost")
  }

  /**
    `get_location_from_ip` up to the network call: a local address gets the default
    coordinates without any lookup; any other address gets `lookup`, the outcome of the call.
   */
  function LocationFromIp(ip: Option<string>, lookup: Coordinates): (r: Coordinates)
    ensures IsLocalAddress(ip) ==> r == DefaultCoordinates
    ensures !IsLocalAddress(ip) ==> r == lookup
  {
    if ip == Some("127.0.0.1") || ip == Some("localhost") then DefaultCoordinates else lookup
  }
}
