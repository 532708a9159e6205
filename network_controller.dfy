/**
 * The network controller's effect on the interface table: refreshing the table from the system's
 * interfaces, and the configuration form of one interface. The system's interface list and the
 * call that reconfigures the host are parameters.
 */
module NetworkControl {
  import opened Wrappers
  import opened Reconcile
  import opened NetworkInterfaces

  /**
   * What the system reports for one interface; a None address is a missing (or None) key, and a
   * None flag is a missing key.
   */
  datatype IfaceData = IfaceData(
    ipAddress: Option<string>, netmask: Option<string>, gateway: Option<string>, dnsServers: Option<string>,
    isDhcp: Option<bool>, isActive: Option<bool>)

  /** The interfaces the refresh never touches: the loopback and the Wi-Fi access point. */
  predicate Skipped(name: string) {
    name == "lo" || name == "wlan0"
  }

  /** The listed interfaces the refresh writes, in listing order. */
  function Refreshable(system: seq<(string, IfaceData)>): (r: seq<(string, IfaceData)>)
    ensures forall j :: 0 <= j < |r| ==> !Skipped(r[j].0)
    ensures forall e :: e in r ==> e in system
  {
    if system == [] then []
    else (if Skipped(system[0].0) then [] else [system[0]]) + Refreshable(system[1..])
  }

  /** `update_config` with the reported values, the flags defaulting to True. */
  function DataChange(d: IfaceData): (ch: Change)
    ensures ch.isDhcp == Some(d.isDhcp.GetOr(true)) && ch.isActive == Some(d.isActive.GetOr(true))
    ensures ch.ipAddress == d.ipAddress && ch.netmask == d.netmask && ch.gateway == d.gateway && ch.dnsServers == d.dnsServers
  {
    Change(d.ipAddress, d.netmask, d.gateway, d.dnsServers, Some(d.isDhcp.GetOr(true)), Some(d.isActive.GetOr(true)))
  }

  function IfaceName(e: (string, IfaceData)): string {
    e.0
  }

  function IfaceInserter(now: int): ((string, IfaceData)) -> InterfaceConfig {
    (e: (string, IfaceData)) => NewInterface(e.0, now, e.1.ipAddress, e.1.netmask, e.1.gateway, e.1.dnsServers,
                                             e.1.isDhcp.GetOr(true), e.1.isActive.GetOr(true))
  }

  function IfaceUpdater(now: int): (InterfaceConfig, (string, IfaceData)) -> InterfaceConfig {
    (c: InterfaceConfig, e: (string, IfaceData)) => Updated(c, DataChange(e.1), now)
  }

  /** The table after a refresh from the listing `system` (None when listing the interfaces raised). */
  function Refreshed(table: map<string, InterfaceConfig>, system: Option<seq<(string, IfaceData)>>, now: int)
    : map<string, InterfaceConfig>
  {
    if system.None? then table
    else Upserted(table, Refreshable(system.value), IfaceName, IfaceInserter(now), IfaceUpdater(now))
  }

  /** The names a refresh writes. */
  function RefreshedNames(system: Option<seq<(string, IfaceData)>>): set<string> {
    if system.None? then {} else Ids(Refreshable(system.value), IfaceName)
  }

  /**
   * A refresh deletes nothing, adds exactly the listed names other than 'lo' and 'wlan0', and leaves
   * every row it does not list (the skipped ones among them) as it was.
   */
  lemma RefreshKeeps(table: map<string, InterfaceConfig>, system: Option<seq<(string, IfaceData)>>, now: int)
    ensures Refreshed(table, system, now).Keys == table.Keys + RefreshedNames(system)
    ensures forall n :: n in RefreshedNames(system) ==> !Skipped(n)
    ensures forall n :: n in RefreshedNames(system) <==> system.Some? && exists j :: 0 <= j < |system.value| && system.value[j].0 == n && !Skipped(n)
    ensures forall n :: n in table && n !in RefreshedNames(system) ==> Refreshed(table, system, now)[n] == table[n]
  {
    if system.Some? {
      var r := Refreshable(system.value);
      UpsertedKeys(table, r, IfaceName, IfaceInserter(now), IfaceUpdater(now));
      forall n ensures n in RefreshedNames(system) <==> exists j :: 0 <= j < |system.value| && system.value[j].0 == n && !Skipped(n) {
        if n in RefreshedNames(system) {
          var i :| 0 <= i < |r| && IfaceName(r[i]) == n;
          assert r[i] in system.value;
          var j :| 0 <= j < |system.value| && system.value[j] == r[i];
        }
        if exists j :: 0 <= j < |system.value| && system.value[j].0 == n && !Skipped(n) {
          var j :| 0 <= j < |system.value| && system.value[j].0 == n && !Skipped(n);
          RefreshableHas(system.value, system.value[j]);
          var i :| 0 <= i < |r| && r[i] == system.value[j];
          assert IfaceName(r[i]) == n;
        }
      }
    }
  }

  /** A listing with each name once, as a dict's items are. */
  predicate DistinctNames(system: seq<(string, IfaceData)>) {
    forall i, j :: 0 <= i < j < |system| ==> system[i].0 != system[j].0
  }

  /**
   * In a listing with distinct names, a written interface is the stored row updated with the
   * reported values, or a new row built from them; a flag the system leaves out becomes True.
   */
  lemma RefreshRow(table: map<string, InterfaceConfig>, system: seq<(string, IfaceData)>, now: int, j: nat)
    requires DistinctNames(system) && j < |system| && !Skipped(system[j].0)
    ensures var (n, d) := system[j];
            var t := Refreshed(table, Some(system), now);
            && n in t
            && t[n] == (if n in table then Updated(table[n], DataChange(d), now)
                        else NewInterface(n, now, d.ipAddress, d.netmask, d.gateway, d.dnsServers,
                                          d.isDhcp.GetOr(true), d.isActive.GetOr(true)))
            && (d.isDhcp.None? ==> t[n].isDhcp) && (d.isActive.None? ==> t[n].isActive)
  {
    var r := Refreshable(system);
    RefreshableHas(system, system[j]);
    var i :| 0 <= i < |r| && r[i] == system[j];
    RefreshableDistinct(system);
    assert forall k :: 0 <= k < |r| && k != i ==> IfaceName(r[k]) != IfaceName(r[i]);
    UpsertedOnly(table, r, IfaceName, IfaceInserter(now), IfaceUpdater(now), i);
  }

  /** Every listed interface that is not skipped is written. */
  lemma {:induction false} RefreshableHas(system: seq<(string, IfaceData)>, e: (string, IfaceData))
    requires e in system && !Skipped(e.0)
    ensures e in Refreshable(system)
    decreases |system|
  {
    if system[0] != e {
      assert e in system[1..];
      RefreshableHas(system[1..], e);
    }
  }

  /** Distinct names stay distinct after the skipped interfaces are dropped. */
  lemma {:induction false} RefreshableDistinct(system: seq<(string, IfaceData)>)
    requires DistinctNames(system)
    ensures DistinctNames(Refreshable(system))
    decreases |system|
  {
    if system != [] {
      var rest := Refreshable(system[1..]);
      assert DistinctNames(system[1..]) by {
        forall a, b | 0 <= a < b < |system[1..]| ensures system[1..][a].0 != system[1..][b].0 {
          assert system[1..][a] == system[a + 1] && system[1..][b] == system[b + 1];
        }
      }
      RefreshableDistinct(system[1..]);
      if !Skipped(system[0].0) {
        var r := [system[0]] + rest;
        assert Refreshable(system) == r;
        forall a, b | 0 <= a < b < |r| ensures r[a].0 != r[b].0 {
          if a == 0 {
            assert r[b] == rest[b - 1] && rest[b - 1] in system[1..];
            var m :| 0 <= m < |system[1..]| && system[1..][m] == rest[b - 1];
            assert system[m + 1] == r[b];
          } else {
            assert r[a] == rest[a - 1] && r[b] == rest[b - 1];
          }
        }
      }
    }
  }

  /** The interface table, written by the refresh. */
  class InterfaceStore {
    var interfaces: map<string, InterfaceConfig>

    constructor()
      ensures interfaces == map[]
    {
      interfaces := map[];
    }

    /**
     * `refresh_interfaces`: every listed interface but 'lo' and 'wlan0' is updated when its name is
     * stored and inserted otherwise; when listing the interfaces raises, nothing is written.
     */
    method RefreshInterfaces(system: Option<seq<(string, IfaceData)>>, now: int) returns (ok: bool)
      modifies this
      ensures ok <==> system.Some?
      ensures interfaces == Refreshed(old(interfaces), system, now)
    {
      if system.None? {
        return false;
      }
      var items := system.value;
      ghost var r := Refreshable(items);
      var i := 0;
      while i < |items|
        invariant i <= |items|
        invariant Upserted(interfaces, Refreshable(items[i..]), IfaceName, IfaceInserter(now), IfaceUpdater(now))
                  == Refreshed(old(interfaces), system, now)
      {
        var (name, data) := items[i];
        assert items[i..][0] == items[i] && items[i..][1..] == items[i + 1..];
        if Skipped(name) {
          assert Refreshable(items[i..]) == Refreshable(items[i + 1..]);
          i := i + 1;
          continue;
        }
        var rest := Refreshable(items[i + 1..]);
        assert Refreshable(items[i..]) == [items[i]] + rest;
        assert ([items[i]] + rest)[0] == items[i] && ([items[i]] + rest)[1..] == rest;
        assert IfaceName(items[i]) == name;
        if name in interfaces {
          assert IfaceUpdater(now)(interfaces[name], items[i]) == Updated(interfaces[name], DataChange(data), now);
          interfaces := interfaces[name := Updated(interfaces[name], DataChange(data), now)];
        } else {
          assert IfaceInserter(now)(items[i]) == NewInterface(name, now, data.ipAddress, data.netmask, data.gateway,
                                                              data.dnsServers, data.isDhcp.GetOr(true), data.isActive.GetOr(true));
          interfaces := interfaces[name := NewInterface(name, now, data.ipAddress, data.netmask, data.gateway,
                                                        data.dnsServers, data.isDhcp.GetOr(true), data.isActive.GetOr(true))];
        }
        i := i + 1;
      }
      assert items[i..] == [];
      return true;
    }
  }

  /**
   * The form of `configure_network`: with DHCP ticked, no address is passed; otherwise each address
   * is the submitted one, if any. Both flags are whether their box was ticked.
   */
  function ConfigureChange(form: map<string, string>): (ch: Change)
    ensures ch.isDhcp == Some("is_dhcp" in form) && ch.isActive == Some("is_active" in form)
    ensures "is_dhcp" in form ==> ch.ipAddress == None && ch.netmask == None && ch.gateway == None && ch.dnsServers == None
    ensures "is_dhcp" !in form ==>
              && ch.ipAddress == (if "ip_address" in form then Some(form["ip_address"]) else None)
              && ch.netmask == (if "netmask" in form then Some(form["netmask"]) else None)
              && ch.gateway == (if "gateway" in form then Some(form["gateway"]) else None)
              && ch.dnsServers == (if "dns_servers" in form then Some(form["dns_servers"]) else None)
  {
    var dhcp := "is_dhcp" in form;
    Change(if dhcp then None else FormGet(form, "ip_address"),
           if dhcp then None else FormGet(form, "netmask"),
           if dhcp then None else FormGet(form, "gateway"),
           if dhcp then None else FormGet(form, "dns_servers"),
           Some(dhcp), Some("is_active" in form))
  }

  /** `request.form.get(field)`. */
  function FormGet(form: map<string, string>, field: string): Option<string> {
    if field in form then Some(form[field]) else None
  }

  /**
   * Choosing DHCP keeps the stored static addresses, so switching back to static mode without
   * resubmitting them finds them again.
   */
  lemma DhcpKeepsStatic(c: InterfaceConfig, form: map<string, string>, now: int)
    requires "is_dhcp" in form
    ensures var r := Updated(c, ConfigureChange(form), now);
            r.isDhcp && r.ipAddress == c.ipAddress && r.netmask == c.netmask && r.gateway == c.gateway &&
            r.dnsServers == c.dnsServers && r.isActive == ("is_active" in form)
  {
  }

  /** Python truthiness of a submitted field: present and not empty. */
  predicate Filled(field: Option<string>) {
    field.Some? && field.value != ""
  }

  /**
   * A form the host configuration always refuses: the interface is to be up, without DHCP, and
   * the address or the netmask is missing or empty, so `configure_interface` raises its own
   * `ValueError`, catches it and returns False.
   */
  predicate MissingStaticAddress(form: map<string, string>) {
    "is_active" in form && "is_dhcp" !in form && (!Filled(FormGet(form, "ip_address")) || !Filled(FormGet(form, "netmask")))
  }

  /**
   * The result of `configure_interface` for the form: False for a form it refuses, otherwise
   * whether its `ip`, `dhclient` and file commands all succeeded (`commandsOk`).
   */
  function ConfigureInterface(form: map<string, string>, commandsOk: bool): (ok: bool)
    ensures MissingStaticAddress(form) ==> !ok
    ensures !MissingStaticAddress(form) ==> ok == commandsOk
  {
    commandsOk && !MissingStaticAddress(form)
  }

  /** What a configuration request leaves: the interface row and whether success was reported. */
  datatype Configured = Configured(config: InterfaceConfig, reportedSuccess: bool)

  /**
   * `configure_network` as written: the result of `configure_interface` is not looked at, so the
   * row always takes the form's change and success is always reported.
   */
  function ConfigureAsWritten(c: InterfaceConfig, form: map<string, string>, commandsOk: bool, now: int): (r: Configured)
    ensures r.reportedSuccess
    ensures r.config == Updated(c, ConfigureChange(form), now)
  {
    Configured(Updated(c, ConfigureChange(form), now), true)
  }

  /**
   * A host refusal is reported as success: for a static form without an address the host
   * configuration fails, yet the row is updated and the page says the interface was configured.
   */
  lemma HostFailureReportedAsSuccess(c: InterfaceConfig, form: map<string, string>, commandsOk: bool, now: int)
    requires MissingStaticAddress(form)
    ensures !ConfigureInterface(form, commandsOk)
    ensures ConfigureAsWritten(c, form, commandsOk, now).reportedSuccess
    ensures ConfigureAsWritten(c, form, commandsOk, now).config == Updated(c, ConfigureChange(form), now)
    ensures ConfigureChecked(c, form, commandsOk, now) == Configured(c, false)
  {
  }

  /**
   * `configure_network` as evidently intended: success is reported, and the row changed, exactly
   * when the host accepted the configuration; a refused configuration leaves the row as it was.
   */
  function ConfigureChecked(c: InterfaceConfig, form: map<string, string>, commandsOk: bool, now: int): (r: Configured)
    ensures r.reportedSuccess <==> ConfigureInterface(form, commandsOk)
    ensures r.reportedSuccess ==> r.config == Updated(c, ConfigureChange(form), now)
    ensures !r.reportedSuccess ==> r.config == c
    ensures MissingStaticAddress(form) ==> r == Configured(c, false)
  {
    if ConfigureInterface(form, commandsOk) then Configured(Updated(c, ConfigureChange(form), now), true)
    else Configured(c, false)
  }

  /** Where the host accepts the configuration, the intended handler does what the written one does. */
  lemma CheckedAgreesOnSuccess(c: InterfaceConfig, form: map<string, string>, commandsOk: bool, now: int)
    requires ConfigureInterface(form, commandsOk)
    ensures ConfigureChecked(c, form, commandsOk, now) == ConfigureAsWritten(c, form, commandsOk, now)
  {
  }

  /**
   * `configure_network` on a submitted form: the host is reconfigured (its result, `hostOk`, is
   * ignored), the row takes the form's change and success is reported.
   */
  method ConfigureNetwork(iface: NetworkInterface, form: map<string, string>, commandsOk: bool, now: int)
    returns (hostOk: bool, reported: bool)
    modifies iface
    ensures hostOk == ConfigureInterface(form, commandsOk)
    ensures iface.Config() == ConfigureAsWritten(old(iface.Config()), form, commandsOk, now).config
    ensures reported == ConfigureAsWritten(old(iface.Config()), form, commandsOk, now).reportedSuccess
  {
    var ch := ConfigureChange(form);
    hostOk := ConfigureInterface(form, commandsOk);
    iface.UpdateConfig(ch, now);
    reported := true;
  }
}
