/**
 * The `NetworkInterface` row of the network pages: a named interface, its static addressing,
 * whether it uses DHCP, whether it is up, and when it was last written. The row is updated in
 * place by `update_config`, which only overwrites the fields whose argument is given.
 */
module NetworkInterfaces {
  import opened Wrappers

  /** The stored fields of an interface row, as a value. */
  datatype InterfaceConfig = InterfaceConfig(
    name: string, ipAddress: Option<string>, netmask: Option<string>, gateway: Option<string>,
    dnsServers: Option<string>, isDhcp: bool, isActive: bool, lastUpdated: int)

  /** The arguments of `update_config`: `None` stands for an argument left at (or passed as) None. */
  datatype Change = Change(
    ipAddress: Option<string>, netmask: Option<string>, gateway: Option<string>, dnsServers: Option<string>,
    isDhcp: Option<bool>, isActive: Option<bool>)

  /** A change that passes every argument as None. */
  const NoChange := Change(None, None, None, None, None, None)

  /** `arg if arg is not None else current`. */
  function Over<T>(arg: Option<T>, current: T): (r: T)
    ensures arg.Some? ==> r == arg.value
    ensures arg.None? ==> r == current
  {
    if arg.Some? then arg.value else current
  }

  /**
   * The row after `update_config(ch)` at time `now`: a given argument replaces its field, a None
   * argument leaves it, the name never changes, and the write time is always refreshed.
   */
  function Updated(c: InterfaceConfig, ch: Change, now: int): (r: InterfaceConfig)
    ensures r.name == c.name && r.lastUpdated == now
    ensures r.ipAddress == (if ch.ipAddress.Some? then ch.ipAddress else c.ipAddress)
    ensures r.netmask == (if ch.netmask.Some? then ch.netmask else c.netmask)
    ensures r.gateway == (if ch.gateway.Some? then ch.gateway else c.gateway)
    ensures r.dnsServers == (if ch.dnsServers.Some? then ch.dnsServers else c.dnsServers)
    ensures ch.isDhcp.Some? ==> r.isDhcp == ch.isDhcp.value
    ensures ch.isDhcp.None? ==> r.isDhcp == c.isDhcp
    ensures ch.isActive.Some? ==> r.isActive == ch.isActive.value
    ensures ch.isActive.None? ==> r.isActive == c.isActive
  {
    c.(ipAddress := if ch.ipAddress.Some? then ch.ipAddress else c.ipAddress,
       netmask := if ch.netmask.Some? then ch.netmask else c.netmask,
       gateway := if ch.gateway.Some? then ch.gateway else c.gateway,
       dnsServers := if ch.dnsServers.Some? then ch.dnsServers else c.dnsServers,
       isDhcp := Over(ch.isDhcp, c.isDhcp),
       isActive := Over(ch.isActive, c.isActive),
       lastUpdated := now)
  }

  /** A call with every argument None changes nothing but the write time. */
  lemma NoChangeTouchesOnlyTime(c: InterfaceConfig, now: int)
    ensures Updated(c, NoChange, now) == c.(lastUpdated := now)
  {
  }

  /** False flags are written: the test is `is not None`, not truthiness. */
  lemma FalseFlagsUpdate(c: InterfaceConfig, ch: Change, now: int)
    requires ch.isDhcp == Some(false) && ch.isActive == Some(false)
    ensures !Updated(c, ch, now).isDhcp && !Updated(c, ch, now).isActive
  {
  }

  /** `b` after `a` is `a` overridden by `b`'s given arguments. */
  function Then(a: Change, b: Change): Change {
    Change(if b.ipAddress.Some? then b.ipAddress else a.ipAddress,
           if b.netmask.Some? then b.netmask else a.netmask,
           if b.gateway.Some? then b.gateway else a.gateway,
           if b.dnsServers.Some? then b.dnsServers else a.dnsServers,
           if b.isDhcp.Some? then b.isDhcp else a.isDhcp,
           if b.isActive.Some? then b.isActive else a.isActive)
  }

  /**
   * Two updates in a row are one update with the later arguments winning; in particular repeating
   * an update changes only the write time.
   */
  lemma UpdatesCompose(c: InterfaceConfig, a: Change, b: Change, t1: int, t2: int)
    ensures Updated(Updated(c, a, t1), b, t2) == Updated(c, Then(a, b), t2)
    ensures Updated(Updated(c, a, t1), a, t2) == Updated(c, a, t2)
  {
  }

  /** The `NetworkInterface` constructor's row, with its keyword defaults. */
  function NewInterface(name: string, now: int, ipAddress: Option<string> := None, netmask: Option<string> := None,
                        gateway: Option<string> := None, dnsServers: Option<string> := None,
                        isDhcp: bool := true, isActive: bool := true): (c: InterfaceConfig)
    ensures c.name == name && c.lastUpdated == now
    ensures c.ipAddress == ipAddress && c.netmask == netmask && c.gateway == gateway && c.dnsServers == dnsServers
    ensures c.isDhcp == isDhcp && c.isActive == isActive
  {
    InterfaceConfig(name, ipAddress, netmask, gateway, dnsServers, isDhcp, isActive, now)
  }

  /** An interface built from its name alone uses DHCP, is up and has no addresses. */
  lemma InterfaceDefaults(name: string, now: int)
    ensures var c := NewInterface(name, now);
            c.isDhcp && c.isActive && c.ipAddress == None && c.netmask == None && c.gateway == None && c.dnsServers == None
  {
  }

  /** An interface row, updated in place. */
  class NetworkInterface {
    var name: string
    var ipAddress: Option<string>
    var netmask: Option<string>
    var gateway: Option<string>
    var dnsServers: Option<string>
    var isDhcp: bool
    var isActive: bool
    var lastUpdated: int

    /** The row's current fields. */
    function Config(): InterfaceConfig
      reads this
    {
      InterfaceConfig(name, ipAddress, netmask, gateway, dnsServers, isDhcp, isActive, lastUpdated)
    }

    constructor(name: string, now: int, ipAddress: Option<string> := None, netmask: Option<string> := None,
                gateway: Option<string> := None, dnsServers: Option<string> := None,
                isDhcp: bool := true, isActive: bool := true)
      ensures Config() == NewInterface(name, now, ipAddress, netmask, gateway, dnsServers, isDhcp, isActive)
    {
      this.name := name;
      this.ipAddress := ipAddress;
      this.netmask := netmask;
      this.gateway := gateway;
      this.dnsServers := dnsServers;
      this.isDhcp := isDhcp;
      this.isActive := isActive;
      this.lastUpdated := now;
    }

    /** `update_config`: each given argument overwrites its field; the write time is always set. */
    method UpdateConfig(ch: Change, now: int)
      modifies this
      ensures Config() == Updated(old(Config()), ch, now)
    {
      if ch.ipAddress.Some? {
        ipAddress := ch.ipAddress;
      }
      if ch.netmask.Some? {
        netmask := ch.netmask;
      }
      if ch.gateway.Some? {
        gateway := ch.gateway;
      }
      if ch.dnsServers.Some? {
        dnsServers := ch.dnsServers;
      }
      if ch.isDhcp.Some? {
        isDhcp := ch.isDhcp.value;
      }
      if ch.isActive.Some? {
        isActive := ch.isActive.value;
      }
      lastUpdated := now;
    }
  }
}
