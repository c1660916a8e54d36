/** The parts of an OpenRTB auction that identity enrichment reads. Extension
    objects are given as what decoding them yields. */
module Auction {
  import opened Wrappers
  import opened Strings

  datatype EID = EID(source: Octets, uids: seq<Octets>)

  datatype User = User(eids: seq<EID>, consent: Octets, extension: Option<Option<Octets>>)

  // `limited` is the Lmt flag being set to 1; `hints` is made of the structured
  // user agent.
  datatype Device = Device(
    ifa: Octets, limited: bool, deviceType: int, ua: Octets, hints: Octets, ip: Octets, ipv6: Octets)

  datatype Site = Site(domain: Octets, page: Octets)

  datatype App = App(bundle: Octets, name: Octets)

  datatype RegsExtension = RegsExtension(gdpr: Option<int>, usPrivacy: Octets)

  datatype Regs = Regs(gdpr: Option<int>, usPrivacy: Octets, gpp: Octets, gppSid: seq<int>, extension: Option<RegsExtension>)

  datatype BidRequest = BidRequest(
    user: Option<User>, device: Option<Device>, site: Option<Site>, app: Option<App>, regs: Option<Regs>)

  function EIDsOf(user: Option<User>): seq<EID> { if user.Some? then user.value.eids else [] }

  // Connected TV and set-top box.
  predicate IsTV(d: Device) { d.deviceType == 3 || d.deviceType == 7 }
}
