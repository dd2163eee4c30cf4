/** kube-proxy's endpoints change tracker and endpoints map (pkg/proxy/endpoints.go). */
module Endpoints {
  import opened ChangeTracking
  import opened Options
  import opened Sequences

  datatype Port = Port(name: string, port: nat)

  datatype Address = Address(ip: string, nodeName: Option<string>)

  datatype Subset = Subset(addresses: seq<Address>, ports: seq<Port>)

  /** v1.Endpoints */
  datatype EndpointsObject = EndpointsObject(namespace: string, name: string, subsets: seq<Subset>)

  /** BaseEndpointInfo */
  datatype EndpointInfo = EndpointInfo(endpoint: string, isLocal: bool)

  datatype ServiceEndpoint = ServiceEndpoint(endpoint: string, servicePortName: ServicePortName)

  type EndpointsTable = Table<seq<EndpointInfo>>

  /** The tracker's fixed settings and the library calls it makes: IsIPv6String, JoinHostPort on the digits of a
      port number, and IPPart, which takes the address out again. */
  datatype Config = Config(hostname: string, isIPv6Mode: Option<bool>, isIPv6: string -> bool,
                           joinHostPort: (string, nat) -> string, ipPart: string -> string)

  function NameOf(o: EndpointsObject): NamespacedName {
    NamespacedName(o.namespace, o.name)
  }

  predicate Usable(cfg: Config, a: Address) {
    a.ip != "" && (cfg.isIPv6Mode.Some? ==> cfg.isIPv6(a.ip) == cfg.isIPv6Mode.value)
  }

  function Info(cfg: Config, a: Address, port: nat): EndpointInfo {
    EndpointInfo(cfg.joinHostPort(a.ip, port), a.nodeName == Some(cfg.hostname))
  }

  // ------------------------------------------------------------------ translating one object

  /** The first `n` addresses, those that are usable, as endpoints of one port. */
  function OfAddresses(cfg: Config, addresses: seq<Address>, n: nat, port: nat): seq<EndpointInfo>
    requires n <= |addresses|
  {
    if n == 0 then []
    else
      OfAddresses(cfg, addresses, n - 1, port) +
      (if Usable(cfg, addresses[n - 1]) then [Info(cfg, addresses[n - 1], port)] else [])
  }

  /** What port `j` of the subset contributes to the named port. */
  function OfPort(cfg: Config, ss: Subset, j: nat, name: string): seq<EndpointInfo>
    requires j < |ss.ports|
  {
    var port := ss.ports[j];
    if port.name == name && port.port != 0 then OfAddresses(cfg, ss.addresses, |ss.addresses|, port.port) else []
  }

  function OfPorts(cfg: Config, ss: Subset, n: nat, name: string): seq<EndpointInfo>
    requires n <= |ss.ports|
  {
    if n == 0 then [] else OfPorts(cfg, ss, n - 1, name) + OfPort(cfg, ss, n - 1, name)
  }

  /** The endpoints behind the named port in the first `n` subsets, in the order in which the object lists them. */
  function OfSubsets(cfg: Config, subsets: seq<Subset>, n: nat, name: string): seq<EndpointInfo>
    requires n <= |subsets|
  {
    if n == 0 then []
    else OfSubsets(cfg, subsets, n - 1, name) + OfPorts(cfg, subsets[n - 1], |subsets[n - 1].ports|, name)
  }

  function Behind(cfg: Config, o: EndpointsObject, name: string): seq<EndpointInfo> {
    OfSubsets(cfg, o.subsets, |o.subsets|, name)
  }

  function PortNames(o: EndpointsObject): set<string> {
    set i, j | 0 <= i < |o.subsets| && 0 <= j < |o.subsets[i].ports| :: o.subsets[i].ports[j].name
  }

  /** endpointsToEndpointsMap of an object that is not nil. */
  function ToTable(cfg: Config, o: EndpointsObject): (table: EndpointsTable)
    ensures forall k :: k in table <==> k.owner == NameOf(o) && Behind(cfg, o, k.port) != []
    ensures forall k :: k in table ==> table[k] == Behind(cfg, o, k.port)
  {
    var keys := set p | p in PortNames(o) && Behind(cfg, o, p) != [] :: ServicePortName(NameOf(o), p);
    assert forall p :: p !in PortNames(o) ==> Behind(cfg, o, p) == [] by {
      forall p | p !in PortNames(o) ensures Behind(cfg, o, p) == [] { UnnamedIsEmpty(cfg, o, |o.subsets|, p); }
    }
    map k | k in keys :: Behind(cfg, o, k.port)
  }

  lemma {:induction false} NoSuchPort(cfg: Config, ss: Subset, n: nat, name: string)
    requires n <= |ss.ports| && forall j :: 0 <= j < |ss.ports| ==> ss.ports[j].name != name
    ensures OfPorts(cfg, ss, n, name) == []
  {
    if n > 0 { NoSuchPort(cfg, ss, n - 1, name); }
  }

  lemma {:induction false} UnnamedIsEmpty(cfg: Config, o: EndpointsObject, n: nat, name: string)
    requires n <= |o.subsets| && name !in PortNames(o)
    ensures OfSubsets(cfg, o.subsets, n, name) == []
  {
    if n > 0 {
      UnnamedIsEmpty(cfg, o, n - 1, name);
      var ss := o.subsets[n - 1];
      assert forall j :: 0 <= j < |ss.ports| ==> ss.ports[j].name in PortNames(o);
      NoSuchPort(cfg, ss, |ss.ports|, name);
    }
  }

  lemma {:induction false} InAddresses(cfg: Config, addresses: seq<Address>, n: nat, port: nat, e: EndpointInfo)
    requires n <= |addresses|
    ensures e in OfAddresses(cfg, addresses, n, port) <==>
            exists a :: 0 <= a < n && Usable(cfg, addresses[a]) && e == Info(cfg, addresses[a], port)
  {
    if n > 0 { InAddresses(cfg, addresses, n - 1, port, e); }
  }

  /** Port `j` of the subset has this name, is valid, and gives `e` with some usable address. */
  ghost predicate PortGives(cfg: Config, ss: Subset, j: nat, name: string, e: EndpointInfo)
    requires j < |ss.ports|
  {
    ss.ports[j].name == name && ss.ports[j].port != 0 &&
    exists a :: 0 <= a < |ss.addresses| && Usable(cfg, ss.addresses[a]) &&
                e == Info(cfg, ss.addresses[a], ss.ports[j].port)
  }

  ghost predicate Offers(cfg: Config, ss: Subset, n: nat, name: string, e: EndpointInfo)
    requires n <= |ss.ports|
  {
    exists j :: 0 <= j < n && PortGives(cfg, ss, j, name, e)
  }

  lemma {:induction false} InPorts(cfg: Config, ss: Subset, n: nat, name: string, e: EndpointInfo)
    requires n <= |ss.ports|
    ensures e in OfPorts(cfg, ss, n, name) <==> Offers(cfg, ss, n, name, e)
  {
    if n > 0 {
      InPorts(cfg, ss, n - 1, name, e);
      InOneMorePort(cfg, ss, n, name, e, OfPorts(cfg, ss, n, name), OfPorts(cfg, ss, n - 1, name));
    }
  }

  lemma InOneMorePort(cfg: Config, ss: Subset, n: nat, name: string, e: EndpointInfo, all: seq<EndpointInfo>,
                      front: seq<EndpointInfo>)
    requires 0 < n <= |ss.ports| && all == front + OfPort(cfg, ss, n - 1, name)
    requires e in front <==> Offers(cfg, ss, n - 1, name, e)
    ensures e in all <==> Offers(cfg, ss, n, name, e)
  {
    PortListed(cfg, ss, n - 1, name, e);
    OffersOneMore(cfg, ss, n, name, e);
    InBoth(front, OfPort(cfg, ss, n - 1, name), e);
  }

  lemma PortListed(cfg: Config, ss: Subset, j: nat, name: string, e: EndpointInfo)
    requires j < |ss.ports|
    ensures PortGives(cfg, ss, j, name, e) <==> e in OfPort(cfg, ss, j, name)
  {
    InAddresses(cfg, ss.addresses, |ss.addresses|, ss.ports[j].port, e);
  }

  lemma OffersOneMore(cfg: Config, ss: Subset, n: nat, name: string, e: EndpointInfo)
    requires 0 < n <= |ss.ports|
    ensures Offers(cfg, ss, n, name, e) <==> Offers(cfg, ss, n - 1, name, e) || PortGives(cfg, ss, n - 1, name, e)
  {
  }

  ghost predicate OfferedIn(cfg: Config, subsets: seq<Subset>, n: nat, name: string, e: EndpointInfo)
    requires n <= |subsets|
  {
    exists i :: 0 <= i < n && Offers(cfg, subsets[i], |subsets[i].ports|, name, e)
  }

  /** An endpoint is listed under a port exactly when some subset pairs a valid port of that name with it. */
  lemma {:induction false} ListedIffOffered(cfg: Config, subsets: seq<Subset>, n: nat, name: string, e: EndpointInfo)
    requires n <= |subsets|
    ensures e in OfSubsets(cfg, subsets, n, name) <==> OfferedIn(cfg, subsets, n, name, e)
  {
    if n > 0 {
      ListedIffOffered(cfg, subsets, n - 1, name, e);
      var ss := subsets[n - 1];
      InPorts(cfg, ss, |ss.ports|, name, e);
      OfferedInOneMore(cfg, subsets, n, name, e);
      InBoth(OfSubsets(cfg, subsets, n - 1, name), OfPorts(cfg, ss, |ss.ports|, name), e);
    }
  }

  lemma OfferedInOneMore(cfg: Config, subsets: seq<Subset>, n: nat, name: string, e: EndpointInfo)
    requires 0 < n <= |subsets|
    ensures OfferedIn(cfg, subsets, n, name, e) <==>
            OfferedIn(cfg, subsets, n - 1, name, e) || Offers(cfg, subsets[n - 1], |subsets[n - 1].ports|, name, e)
  {
  }

  // ---- the same, said of the object

  /** The address and the port give this endpoint under this name: both are valid, and the address is of the right
      family; the endpoint is local if the address is on the proxy's own node. */
  ghost predicate Shown(cfg: Config, addr: Address, port: Port, name: string, e: EndpointInfo) {
    && port.name == name && port.port != 0 && addr.ip != ""
    && (cfg.isIPv6Mode.None? || cfg.isIPv6(addr.ip) == cfg.isIPv6Mode.value)
    && e.endpoint == cfg.joinHostPort(addr.ip, port.port)
    && (e.isLocal <==> addr.nodeName.Some? && addr.nodeName.value == cfg.hostname)
  }

  ghost predicate ShownBy(cfg: Config, ss: Subset, name: string, e: EndpointInfo) {
    exists j, a :: 0 <= j < |ss.ports| && 0 <= a < |ss.addresses| && Shown(cfg, ss.addresses[a], ss.ports[j], name, e)
  }

  /** Some subset of the object pairs them. */
  ghost predicate ShownIn(cfg: Config, o: EndpointsObject, name: string, e: EndpointInfo) {
    exists i :: 0 <= i < |o.subsets| && ShownBy(cfg, o.subsets[i], name, e)
  }

  lemma PortShows(cfg: Config, ss: Subset, j: nat, name: string, e: EndpointInfo)
    requires j < |ss.ports|
    ensures PortGives(cfg, ss, j, name, e) <==>
            exists a :: 0 <= a < |ss.addresses| && Shown(cfg, ss.addresses[a], ss.ports[j], name, e)
  {
    forall a | 0 <= a < |ss.addresses|
      ensures Shown(cfg, ss.addresses[a], ss.ports[j], name, e) <==>
              ss.ports[j].name == name && ss.ports[j].port != 0 && Usable(cfg, ss.addresses[a]) &&
              e == Info(cfg, ss.addresses[a], ss.ports[j].port)
    {
    }
  }

  lemma OffersMeans(cfg: Config, ss: Subset, name: string, e: EndpointInfo)
    ensures Offers(cfg, ss, |ss.ports|, name, e) <==> ShownBy(cfg, ss, name, e)
  {
    forall j | 0 <= j < |ss.ports|
      ensures PortGives(cfg, ss, j, name, e) <==>
              exists a :: 0 <= a < |ss.addresses| && Shown(cfg, ss.addresses[a], ss.ports[j], name, e)
    {
      PortShows(cfg, ss, j, name, e);
    }
  }

  /** What is listed under a port of the object is what its subsets show. */
  lemma ListedMeans(cfg: Config, o: EndpointsObject, name: string, e: EndpointInfo)
    ensures e in Behind(cfg, o, name) <==> ShownIn(cfg, o, name, e)
  {
    ListedIffOffered(cfg, o.subsets, |o.subsets|, name, e);
    forall i | 0 <= i < |o.subsets|
      ensures Offers(cfg, o.subsets[i], |o.subsets[i].ports|, name, e) <==> ShownBy(cfg, o.subsets[i], name, e)
    {
      OffersMeans(cfg, o.subsets[i], name, e);
    }
  }

  // ---- the order of the lists: addresses within ports within subsets

  lemma {:induction false} AddressesInOrder(cfg: Config, x: seq<Address>, y: seq<Address>, n: nat, port: nat)
    requires n <= |y|
    ensures OfAddresses(cfg, x + y, |x| + n, port) == OfAddresses(cfg, x, |x|, port) + OfAddresses(cfg, y, n, port)
  {
    if n == 0 {
      AddressesOnly(cfg, x, y, |x|, port);
    } else {
      AddressesInOrder(cfg, x, y, n - 1, port);
      var more := if Usable(cfg, y[n - 1]) then [Info(cfg, y[n - 1], port)] else [];
      Associative(OfAddresses(cfg, x, |x|, port), OfAddresses(cfg, y, n - 1, port), more);
    }
  }

  lemma {:induction false} AddressesOnly(cfg: Config, x: seq<Address>, y: seq<Address>, n: nat, port: nat)
    requires n <= |x|
    ensures OfAddresses(cfg, x + y, n, port) == OfAddresses(cfg, x, n, port)
  {
    if n > 0 { AddressesOnly(cfg, x, y, n - 1, port); }
  }

  lemma {:induction false} PortsOnly(cfg: Config, addresses: seq<Address>, x: seq<Port>, y: seq<Port>, n: nat,
                                     name: string)
    requires n <= |x|
    ensures OfPorts(cfg, Subset(addresses, x + y), n, name) == OfPorts(cfg, Subset(addresses, x), n, name)
  {
    if n > 0 { PortsOnly(cfg, addresses, x, y, n - 1, name); }
  }

  lemma {:induction false} PortsInOrder(cfg: Config, addresses: seq<Address>, x: seq<Port>, y: seq<Port>, n: nat,
                                        name: string)
    requires n <= |y|
    ensures OfPorts(cfg, Subset(addresses, x + y), |x| + n, name) ==
            OfPorts(cfg, Subset(addresses, x), |x|, name) + OfPorts(cfg, Subset(addresses, y), n, name)
  {
    if n == 0 {
      PortsOnly(cfg, addresses, x, y, |x|, name);
    } else {
      PortsInOrder(cfg, addresses, x, y, n - 1, name);
      Associative(OfPorts(cfg, Subset(addresses, x), |x|, name), OfPorts(cfg, Subset(addresses, y), n - 1, name),
                  OfPort(cfg, Subset(addresses, y), n - 1, name));
    }
  }

  lemma {:induction false} SubsetsOnly(cfg: Config, x: seq<Subset>, y: seq<Subset>, n: nat, name: string)
    requires n <= |x|
    ensures OfSubsets(cfg, x + y, n, name) == OfSubsets(cfg, x, n, name)
  {
    if n > 0 { SubsetsOnly(cfg, x, y, n - 1, name); }
  }

  lemma {:induction false} SubsetsInOrder(cfg: Config, x: seq<Subset>, y: seq<Subset>, n: nat, name: string)
    requires n <= |y|
    ensures OfSubsets(cfg, x + y, |x| + n, name) == OfSubsets(cfg, x, |x|, name) + OfSubsets(cfg, y, n, name)
  {
    if n == 0 {
      SubsetsOnly(cfg, x, y, |x|, name);
    } else {
      SubsetsInOrder(cfg, x, y, n - 1, name);
      Associative(OfSubsets(cfg, x, |x|, name), OfSubsets(cfg, y, n - 1, name),
                  OfPorts(cfg, y[n - 1], |y[n - 1].ports|, name));
    }
  }

  function With(o: EndpointsObject, subsets: seq<Subset>): EndpointsObject {
    o.(subsets := subsets)
  }

  /** Lists follow the order of the object: what earlier subsets give comes first; */
  lemma SubsetsListedInOrder(cfg: Config, o: EndpointsObject, x: seq<Subset>, y: seq<Subset>, name: string)
    ensures Behind(cfg, With(o, x + y), name) == Behind(cfg, With(o, x), name) + Behind(cfg, With(o, y), name)
  {
    SubsetsInOrder(cfg, x, y, |y|, name);
  }

  /** within a subset, what earlier ports give; */
  lemma PortsListedInOrder(cfg: Config, o: EndpointsObject, addresses: seq<Address>, x: seq<Port>, y: seq<Port>,
                           name: string)
    ensures Behind(cfg, With(o, [Subset(addresses, x + y)]), name) ==
            Behind(cfg, With(o, [Subset(addresses, x)]), name) + Behind(cfg, With(o, [Subset(addresses, y)]), name)
  {
    PortsInOrder(cfg, addresses, x, y, |y|, name);
    OneSubset(cfg, o, Subset(addresses, x + y), name);
    OneSubset(cfg, o, Subset(addresses, x), name);
    OneSubset(cfg, o, Subset(addresses, y), name);
  }

  /** and within a port, what earlier addresses give. */
  lemma AddressesListedInOrder(cfg: Config, o: EndpointsObject, x: seq<Address>, y: seq<Address>, port: Port,
                               name: string)
    ensures Behind(cfg, With(o, [Subset(x + y, [port])]), name) ==
            Behind(cfg, With(o, [Subset(x, [port])]), name) + Behind(cfg, With(o, [Subset(y, [port])]), name)
  {
    AddressesInOrder(cfg, x, y, |y|, port.port);
    OneSubset(cfg, o, Subset(x + y, [port]), name);
    OneSubset(cfg, o, Subset(x, [port]), name);
    OneSubset(cfg, o, Subset(y, [port]), name);
  }

  lemma OneSubset(cfg: Config, o: EndpointsObject, ss: Subset, name: string)
    ensures Behind(cfg, With(o, [ss]), name) == OfPorts(cfg, ss, |ss.ports|, name)
    ensures |ss.ports| == 1 ==> OfPorts(cfg, ss, 1, name) == OfPort(cfg, ss, 0, name)
  {
    assert OfSubsets(cfg, [ss], 0, name) == [];
    if |ss.ports| == 1 { assert OfPorts(cfg, ss, 0, name) == []; }
  }

  /** `table` lists exactly `lists(port)` under each port of `owner`, and has no empty list. */
  ghost predicate Lists(table: EndpointsTable, owner: NamespacedName, lists: string -> seq<EndpointInfo>) {
    && (forall k :: k in table ==> k.owner == owner && table[k] != [])
    && (forall p :: At(table, ServicePortName(owner, p)) == lists(p))
  }

  /** Go's reading of a map of slices. */
  function At(table: EndpointsTable, k: ServicePortName): seq<EndpointInfo> {
    if k in table then table[k] else []
  }

  function Append(table: EndpointsTable, k: ServicePortName, info: EndpointInfo): EndpointsTable {
    table[k := At(table, k) + [info]]
  }

  lemma ListsAppend(table: EndpointsTable, owner: NamespacedName, name: string, info: EndpointInfo,
                    lists: string -> seq<EndpointInfo>, lists': string -> seq<EndpointInfo>)
    requires Lists(table, owner, lists)
    requires forall p :: lists'(p) == lists(p) + if p == name then [info] else []
    ensures Lists(Append(table, ServicePortName(owner, name), info), owner, lists')
  {
  }

  lemma ListsSame(table: EndpointsTable, owner: NamespacedName,
                  lists: string -> seq<EndpointInfo>, lists': string -> seq<EndpointInfo>)
    requires Lists(table, owner, lists) && forall p :: lists'(p) == lists(p)
    ensures Lists(table, owner, lists')
  {
  }

  /** `before` extended under one port by the endpoints of the first `n` addresses. */
  ghost function PlusAddresses(cfg: Config, addresses: seq<Address>, n: nat, port: Port,
                               before: string -> seq<EndpointInfo>)
    : string -> seq<EndpointInfo>
    requires n <= |addresses|
  {
    p => before(p) + if p == port.name then OfAddresses(cfg, addresses, n, port.port) else []
  }

  ghost function PlusPorts(cfg: Config, ss: Subset, n: nat, before: string -> seq<EndpointInfo>)
    : string -> seq<EndpointInfo>
    requires n <= |ss.ports|
  {
    p => before(p) + OfPorts(cfg, ss, n, p)
  }

  lemma ListsOneAddress(cfg: Config, addresses: seq<Address>, a: nat, port: Port, owner: NamespacedName,
                        table: EndpointsTable, before: string -> seq<EndpointInfo>)
    requires a < |addresses| && Lists(table, owner, PlusAddresses(cfg, addresses, a, port, before))
    ensures Lists(if Usable(cfg, addresses[a])
                  then Append(table, ServicePortName(owner, port.name), Info(cfg, addresses[a], port.port)) else table,
                  owner, PlusAddresses(cfg, addresses, a + 1, port, before))
  {
    var now, then' :=
      PlusAddresses(cfg, addresses, a, port, before), PlusAddresses(cfg, addresses, a + 1, port, before);
    var more := if Usable(cfg, addresses[a]) then [Info(cfg, addresses[a], port.port)] else [];
    forall p ensures then'(p) == now(p) + if p == port.name then more else [] {
      Associative(before(p), OfAddresses(cfg, addresses, a, port.port), more);
    }
    if Usable(cfg, addresses[a]) {
      ListsAppend(table, owner, port.name, Info(cfg, addresses[a], port.port), now, then');
    } else {
      ListsSame(table, owner, now, then');
    }
  }

  lemma ListsNoAddress(cfg: Config, addresses: seq<Address>, port: Port, owner: NamespacedName, table: EndpointsTable,
                       before: string -> seq<EndpointInfo>)
    requires Lists(table, owner, before)
    ensures Lists(table, owner, PlusAddresses(cfg, addresses, 0, port, before))
  {
    ListsSame(table, owner, before, PlusAddresses(cfg, addresses, 0, port, before));
  }

  /** One address: one without IP or of another family is skipped. */
  method AppendAddress(cfg: Config, addr: Address, port: Port, owner: NamespacedName, table: EndpointsTable)
    returns (table': EndpointsTable)
    ensures table' == if !Usable(cfg, addr) then table
                      else Append(table, ServicePortName(owner, port.name), Info(cfg, addr, port.port))
  {
    if addr.ip == "" { return table; }
    if cfg.isIPv6Mode.Some? && cfg.isIPv6(addr.ip) != cfg.isIPv6Mode.value { return table; }
    var isLocal := addr.nodeName.Some? && addr.nodeName.value == cfg.hostname;
    var info := EndpointInfo(cfg.joinHostPort(addr.ip, port.port), isLocal);
    table' := Append(table, ServicePortName(owner, port.name), info);
  }

  /** The innermost loop of endpointsToEndpointsMap: append every usable address under one port. */
  method AppendAddresses(cfg: Config, addresses: seq<Address>, port: Port, owner: NamespacedName, table: EndpointsTable,
                         ghost before: string -> seq<EndpointInfo>)
    returns (table': EndpointsTable)
    requires Lists(table, owner, before)
    ensures Lists(table', owner, PlusAddresses(cfg, addresses, |addresses|, port, before))
  {
    table' := table;
    ListsNoAddress(cfg, addresses, port, owner, table, before);
    for a := 0 to |addresses|
      invariant Lists(table', owner, PlusAddresses(cfg, addresses, a, port, before))
    {
      ListsOneAddress(cfg, addresses, a, port, owner, table', before);
      table' := AppendAddress(cfg, addresses[a], port, owner, table');
    }
  }

  lemma PlusOnePort(cfg: Config, ss: Subset, j: nat, before: string -> seq<EndpointInfo>, p: string)
    requires j < |ss.ports|
    ensures PlusPorts(cfg, ss, j + 1, before)(p) ==
            if ss.ports[j].port == 0 then PlusPorts(cfg, ss, j, before)(p)
            else PlusAddresses(cfg, ss.addresses, |ss.addresses|, ss.ports[j], PlusPorts(cfg, ss, j, before))(p)
  {
    var more := OfPort(cfg, ss, j, p);
    Associative(before(p), OfPorts(cfg, ss, j, p), more);
  }

  lemma ListsNoPort(cfg: Config, ss: Subset, before: string -> seq<EndpointInfo>, owner: NamespacedName,
                    table: EndpointsTable)
    requires Lists(table, owner, before)
    ensures Lists(table, owner, PlusPorts(cfg, ss, 0, before))
  {
    ListsSame(table, owner, before, PlusPorts(cfg, ss, 0, before));
  }

  lemma ListsOnePort(cfg: Config, ss: Subset, j: nat, before: string -> seq<EndpointInfo>, owner: NamespacedName,
                     table: EndpointsTable)
    requires j < |ss.ports|
    requires ss.ports[j].port == 0 ==> Lists(table, owner, PlusPorts(cfg, ss, j, before))
    requires ss.ports[j].port != 0 ==>
               Lists(table, owner,
                     PlusAddresses(cfg, ss.addresses, |ss.addresses|, ss.ports[j], PlusPorts(cfg, ss, j, before)))
    ensures Lists(table, owner, PlusPorts(cfg, ss, j + 1, before))
  {
    var then' := PlusPorts(cfg, ss, j + 1, before);
    var now := if ss.ports[j].port == 0 then PlusPorts(cfg, ss, j, before)
               else PlusAddresses(cfg, ss.addresses, |ss.addresses|, ss.ports[j], PlusPorts(cfg, ss, j, before));
    forall p ensures then'(p) == now(p) { PlusOnePort(cfg, ss, j, before, p); }
    ListsSame(table, owner, now, then');
  }

  /** One port of a subset: a port number of zero is skipped. */
  method AppendPort(cfg: Config, ss: Subset, j: nat, owner: NamespacedName, table: EndpointsTable,
                    ghost before: string -> seq<EndpointInfo>)
    returns (table': EndpointsTable)
    requires j < |ss.ports| && Lists(table, owner, PlusPorts(cfg, ss, j, before))
    ensures Lists(table', owner, PlusPorts(cfg, ss, j + 1, before))
  {
    table' := table;
    if ss.ports[j].port != 0 {
      table' := AppendAddresses(cfg, ss.addresses, ss.ports[j], owner, table, PlusPorts(cfg, ss, j, before));
    }
    ListsOnePort(cfg, ss, j, before, owner, table');
  }

  /** The loop over one subset's ports. */
  method AppendPorts(cfg: Config, ss: Subset, owner: NamespacedName, table: EndpointsTable,
                     ghost before: string -> seq<EndpointInfo>)
    returns (table': EndpointsTable)
    requires Lists(table, owner, before)
    ensures Lists(table', owner, PlusPorts(cfg, ss, |ss.ports|, before))
  {
    table' := table;
    ListsNoPort(cfg, ss, before, owner, table);
    for j := 0 to |ss.ports|
      invariant Lists(table', owner, PlusPorts(cfg, ss, j, before))
    {
      table' := AppendPort(cfg, ss, j, owner, table', before);
    }
  }

  ghost function FirstSubsets(cfg: Config, subsets: seq<Subset>, n: nat): string -> seq<EndpointInfo>
    requires n <= |subsets|
  {
    p => OfSubsets(cfg, subsets, n, p)
  }

  lemma ListsNoSubset(cfg: Config, o: EndpointsObject)
    ensures Lists(map[], NameOf(o), FirstSubsets(cfg, o.subsets, 0))
  {
  }

  lemma ListsOneSubset(cfg: Config, subsets: seq<Subset>, i: nat, owner: NamespacedName, table: EndpointsTable)
    requires i < |subsets|
    requires Lists(table, owner, PlusPorts(cfg, subsets[i], |subsets[i].ports|, FirstSubsets(cfg, subsets, i)))
    ensures Lists(table, owner, FirstSubsets(cfg, subsets, i + 1))
  {
    ListsSame(table, owner, PlusPorts(cfg, subsets[i], |subsets[i].ports|, FirstSubsets(cfg, subsets, i)),
              FirstSubsets(cfg, subsets, i + 1));
  }

  lemma ListsIsTable(cfg: Config, o: EndpointsObject, table: EndpointsTable)
    requires Lists(table, NameOf(o), FirstSubsets(cfg, o.subsets, |o.subsets|))
    ensures table == ToTable(cfg, o)
  {
  }

  function Translate(cfg: Config): EndpointsObject -> Option<EndpointsTable> {
    o => Some(ToTable(cfg, o))
  }

  method EndpointsToEndpointsMap(cfg: Config, endpoints: Option<EndpointsObject>)
    returns (table: Option<EndpointsTable>)
    ensures table == Translated(Translate(cfg), endpoints)
  {
    if endpoints.None? { return None; }
    var o := endpoints.value;
    var endpointsMap: EndpointsTable := map[];
    ListsNoSubset(cfg, o);
    for i := 0 to |o.subsets|
      invariant Lists(endpointsMap, NameOf(o), FirstSubsets(cfg, o.subsets, i))
    {
      endpointsMap := AppendPorts(cfg, o.subsets[i], NameOf(o), endpointsMap, FirstSubsets(cfg, o.subsets, i));
      ListsOneSubset(cfg, o.subsets, i, NameOf(o), endpointsMap);
    }
    ListsIsTable(cfg, o, endpointsMap);
    table := Some(endpointsMap);
  }

  // ------------------------------------------------------------------ stale connections

  /** Endpoint.Equal compares the string and the locality, so it is equality of infos. */
  predicate HasEqual(table: EndpointsTable, k: ServicePortName, ep: EndpointInfo) {
    k in table && ep in table[k]
  }

  /** One of the first `n` endpoints listed under the port is shown as `e`, and none equal to it is listed after. */
  ghost predicate StaleAmong(k: ServicePortName, eps: seq<EndpointInfo>, n: nat, after: EndpointsTable,
                             e: ServiceEndpoint)
    requires n <= |eps|
  {
    exists i :: 0 <= i < n && e == ServiceEndpoint(eps[i].endpoint, k) && !HasEqual(after, k, eps[i])
  }

  /** The pair was present before, and no endpoint equal to it is under that port after. */
  ghost predicate IsStale(before: EndpointsTable, after: EndpointsTable, e: ServiceEndpoint) {
    var k := e.servicePortName;
    k in before && StaleAmong(k, before[k], |before[k]|, after, e)
  }

  /** The port had no endpoint before and has one after. */
  ghost predicate NewlyBacked(before: EndpointsTable, after: EndpointsTable, k: ServicePortName) {
    k in after && after[k] != [] && (k !in before || before[k] == [])
  }

  /** The loop over one port's old endpoints. */
  method StaleOfPort(k: ServicePortName, eps: seq<EndpointInfo>, after: EndpointsTable, stale: seq<ServiceEndpoint>)
    returns (stale': seq<ServiceEndpoint>)
    ensures forall e :: e in stale' <==> e in stale || StaleAmong(k, eps, |eps|, after, e)
  {
    stale' := stale;
    for i := 0 to |eps|
      invariant forall e :: e in stale' <==> e in stale || StaleAmong(k, eps, i, after, e)
    {
      var isStale := true;
      var news := if k in after then after[k] else [];
      for j := 0 to |news|
        invariant isStale && forall j' :: 0 <= j' < j ==> news[j'] != eps[i]
      {
        if news[j] == eps[i] {
          isStale := false;
          assert eps[i] in news;
          break;
        }
      }
      assert isStale <==> !HasEqual(after, k, eps[i]);
      ghost var shown := ServiceEndpoint(eps[i].endpoint, k);
      forall e
        ensures StaleAmong(k, eps, i + 1, after, e) <==> StaleAmong(k, eps, i, after, e) || (e == shown && isStale)
      {
        if StaleAmong(k, eps, i, after, e) {
          var i' :| 0 <= i' < i && e == ServiceEndpoint(eps[i'].endpoint, k) && !HasEqual(after, k, eps[i']);
          assert i' < i + 1;
        }
      }
      if isStale {
        stale' := stale' + [ServiceEndpoint(eps[i].endpoint, k)];
      }
    }
  }

  method DetectStaleConnections(before: EndpointsTable, after: EndpointsTable,
                                staleEndpoints: seq<ServiceEndpoint>, staleServiceNames: seq<ServicePortName>)
    returns (stale: seq<ServiceEndpoint>, names: seq<ServicePortName>)
    ensures forall e :: e in stale <==> e in staleEndpoints || IsStale(before, after, e)
    ensures forall k :: k in names <==> k in staleServiceNames || NewlyBacked(before, after, k)
  {
    stale, names := staleEndpoints, staleServiceNames;
    var keys := before.Keys;
    while keys != {}
      invariant keys <= before.Keys
      invariant forall e :: e in stale <==>
                  e in staleEndpoints || (e.servicePortName !in keys && IsStale(before, after, e))
      decreases keys
    {
      var k :| k in keys;
      keys := keys - {k};
      stale := StaleOfPort(k, before[k], after, stale);
    }
    keys := after.Keys;
    while keys != {}
      invariant keys <= after.Keys
      invariant forall k :: k in names <==> k in staleServiceNames || (k !in keys && NewlyBacked(before, after, k))
      decreases keys
    {
      var k :| k in keys;
      keys := keys - {k};
      if |after[k]| > 0 && (if k in before then |before[k]| else 0) == 0 {
        names := names + [k];
      }
    }
  }

  // ------------------------------------------------------------------ the tracker and the map

  class EndpointChangeTracker {
    const cfg: Config
    var items: Items<seq<EndpointInfo>>

    constructor (cfg: Config)
      ensures this.cfg == cfg && items == map[]
    {
      this.cfg := cfg;
      items := map[];
    }

    method Update(previous: Option<EndpointsObject>, current: Option<EndpointsObject>) returns (pending: bool)
      modifies this
      ensures previous.None? && current.None? ==> items == old(items) && !pending
      ensures !(previous.None? && current.None?) ==>
                var name := NameOf(if current.Some? then current.value else previous.value);
                && items == Record(old(items), name, Translated(Translate(cfg), previous),
                                   Translated(Translate(cfg), current))
                && pending == (items != map[])
    {
      var endpoints := if current.Some? then current else previous;
      if endpoints.None? { return false; }
      var namespacedName := NameOf(endpoints.value);
      var before := None;
      if namespacedName !in items { before := EndpointsToEndpointsMap(cfg, previous); }
      var after := EndpointsToEndpointsMap(cfg, current);
      items := RecordChange(items, namespacedName, before, after);
      pending := |items| > 0;
    }
  }

  class EndpointsMap {
    var m: EndpointsTable

    constructor ()
      ensures m == map[]
    {
      m := map[];
    }

    method Merge(other: EndpointsTable)
      modifies this
      ensures m == old(m) + other
    {
      var keys := other.Keys;
      while keys != {}
        invariant keys <= other.Keys
        invariant m == old(m) + map k | k in other && k !in keys :: other[k]
        decreases keys
      {
        var k :| k in keys;
        keys := keys - {k};
        m := m[k := other[k]];
      }
    }

    method Unmerge(other: EndpointsTable)
      modifies this
      ensures m == old(m) - other.Keys
    {
      var keys := other.Keys;
      while keys != {}
        invariant keys <= other.Keys
        invariant m == old(m) - (other.Keys - keys)
        decreases keys
      {
        var k :| k in keys;
        keys := keys - {k};
        m := m - {k};
      }
    }

    /** apply; `order` is the order in which Go's range happens to visit the pending changes. */
    method Apply(changes: EndpointChangeTracker?)
      returns (stale: seq<ServiceEndpoint>, names: seq<ServicePortName>, ghost order: seq<NamespacedName>)
      modifies this, changes
      ensures changes == null ==> m == old(m) && stale == [] && names == []
      ensures changes != null ==>
                && changes.items == map[] && Ordering(old(changes.items), order)
                && m == ApplyInOrder(old(m), old(changes.items), order)
                && (forall e :: e in stale <==> StaleInSome(old(changes.items), old(changes.items).Keys, e))
                && (forall k :: k in names <==> BackedInSome(old(changes.items), old(changes.items).Keys, k))
    {
      stale, names, order := [], [], [];
      if changes == null { return; }
      ghost var before, items := m, changes.items;
      var keys := changes.items.Keys;
      while keys != {}
        invariant changes.items == items && keys <= items.Keys
        invariant Visits(order, items.Keys - keys) && m == ApplyInOrder(before, items, order)
        invariant forall e :: e in stale <==> StaleInSome(items, items.Keys - keys, e)
        invariant forall k :: k in names <==> BackedInSome(items, items.Keys - keys, k)
        decreases keys
      {
        var n :| n in keys;
        var change := changes.items[n];
        ApplyInOrderOneMore(before, items, order, n);
        VisitsOneMore(order, items.Keys, keys, n);
        OneMoreChange(items, items.Keys - keys, n);
        assert (items.Keys - keys) + {n} == items.Keys - (keys - {n});
        Unmerge(Contents(change.previous));
        Merge(Contents(change.current));
        stale, names := DetectStaleConnections(Contents(change.previous), Contents(change.current), stale, names);
        order, keys := order + [n], keys - {n};
      }
      assert items.Keys - keys == items.Keys;
      changes.items := map[];
    }
  }

  /** A change of some object in `done` makes the pair stale. */
  ghost predicate StaleInSome(items: Items<seq<EndpointInfo>>, done: set<NamespacedName>, e: ServiceEndpoint) {
    exists n :: n in done && n in items && IsStale(Contents(items[n].previous), Contents(items[n].current), e)
  }

  ghost predicate BackedInSome(items: Items<seq<EndpointInfo>>, done: set<NamespacedName>, k: ServicePortName) {
    exists n :: n in done && n in items && NewlyBacked(Contents(items[n].previous), Contents(items[n].current), k)
  }

  lemma OneMoreChange(items: Items<seq<EndpointInfo>>, done: set<NamespacedName>, n: NamespacedName)
    requires n in items
    ensures forall e :: StaleInSome(items, done + {n}, e) <==>
              StaleInSome(items, done, e) || IsStale(Contents(items[n].previous), Contents(items[n].current), e)
    ensures forall k :: BackedInSome(items, done + {n}, k) <==>
              BackedInSome(items, done, k) || NewlyBacked(Contents(items[n].previous), Contents(items[n].current), k)
  {
  }

  // ------------------------------------------------------------------ local endpoints

  /** The addresses of the local endpoints among the first `n`. */
  ghost function LocalsOf(cfg: Config, eps: seq<EndpointInfo>, n: nat): set<string>
    requires n <= |eps|
  {
    set i | 0 <= i < n && eps[i].isLocal :: cfg.ipPart(eps[i].endpoint)
  }

  /** The addresses of the local endpoints that these ports of an object have. */
  ghost function LocalIPs(cfg: Config, table: EndpointsTable, ports: set<ServicePortName>, n: NamespacedName)
    : set<string>
  {
    set k, ip | k in ports && k in table && k.owner == n && ip in LocalsOf(cfg, table[k], |table[k]|) :: ip
  }

  /** The inner loop of GetLocalEndpointIPs. */
  method InsertLocals(cfg: Config, eps: seq<EndpointInfo>, ips: set<string>) returns (ips': set<string>)
    ensures ips' == ips + LocalsOf(cfg, eps, |eps|)
  {
    ips' := ips;
    for i := 0 to |eps|
      invariant ips' == ips + LocalsOf(cfg, eps, i)
    {
      assert LocalsOf(cfg, eps, i + 1) ==
             LocalsOf(cfg, eps, i) + if eps[i].isLocal then {cfg.ipPart(eps[i].endpoint)} else {};
      if eps[i].isLocal { ips' := ips' + {cfg.ipPart(eps[i].endpoint)}; }
    }
  }

  lemma LocalIPsOneMore(cfg: Config, table: EndpointsTable, ports: set<ServicePortName>, k: ServicePortName,
                        n: NamespacedName)
    requires k in table
    ensures LocalIPs(cfg, table, ports + {k}, n) ==
            LocalIPs(cfg, table, ports, n) + if k.owner == n then LocalsOf(cfg, table[k], |table[k]|) else {}
  {
  }

  /** Exactly the objects with a local endpoint, each with the addresses of all of these. */
  ghost predicate ListsLocals(cfg: Config, table: EndpointsTable, ports: set<ServicePortName>,
                              ips: map<NamespacedName, set<string>>)
  {
    forall n :: if n in ips then ips[n] == LocalIPs(cfg, table, ports, n) != {}
                else LocalIPs(cfg, table, ports, n) == {}
  }

  lemma ListsLocalsOneMore(cfg: Config, table: EndpointsTable, ports: set<ServicePortName>, k: ServicePortName,
                           ips: map<NamespacedName, set<string>>, own: set<string>)
    requires k in table && ListsLocals(cfg, table, ports, ips)
    requires own == (if k.owner in ips then ips[k.owner] else {}) + LocalsOf(cfg, table[k], |table[k]|)
    ensures ListsLocals(cfg, table, ports + {k}, if own != {} then ips[k.owner := own] else ips)
  {
    var ips' := if own != {} then ips[k.owner := own] else ips;
    forall n
      ensures if n in ips' then ips'[n] == LocalIPs(cfg, table, ports + {k}, n) != {}
              else LocalIPs(cfg, table, ports + {k}, n) == {}
    {
      LocalIPsOneMore(cfg, table, ports, k, n);
    }
  }

  method GetLocalEndpointIPs(cfg: Config, table: EndpointsTable) returns (ips: map<NamespacedName, set<string>>)
    ensures ListsLocals(cfg, table, table.Keys, ips)
  {
    ips := map[];
    var keys := table.Keys;
    ghost var done: set<ServicePortName> := {};
    while keys != {}
      invariant keys !! done && keys + done == table.Keys
      invariant ListsLocals(cfg, table, done, ips)
      decreases keys
    {
      var k :| k in keys;
      keys := keys - {k};
      var own := InsertLocals(cfg, table[k], if k.owner in ips then ips[k.owner] else {});
      ListsLocalsOneMore(cfg, table, done, k, ips, own);
      if own != {} { ips := ips[k.owner := own]; }
      done := done + {k};
    }
    assert done == table.Keys;
  }

  // ------------------------------------------------------------------ whole runs

  type ProxyWorld = World<EndpointsObject, seq<EndpointInfo>>

  ghost predicate ProxyRun(cfg: Config, worlds: seq<ProxyWorld>, events: seq<Event<EndpointsObject>>) {
    IsRun(Translate(cfg), NameOf, worlds, events)
  }

  /** endpointsMap is what a rebuild over all current Endpoints objects would give, after every apply. */
  lemma EndpointsMapIsRebuilt(cfg: Config, worlds: seq<ProxyWorld>, events: seq<Event<EndpointsObject>>)
    requires ProxyRun(cfg, worlds, events) && |events| > 0 && events[|events| - 1].Apply?
    ensures IsUnion(Translate(cfg), worlds[|events|].objects, worlds[|events|].table)
  {
    IncrementalIsRebuilt(Translate(cfg), NameOf, worlds, events);
  }

  /** Under each port exactly the endpoints that the current object shows are listed, and no list is empty. */
  ghost predicate ShowsObjects(cfg: Config, objects: map<NamespacedName, EndpointsObject>, table: EndpointsTable) {
    && (forall k: ServicePortName, e ::
          e in At(table, k) <==> k.owner in objects && ShownIn(cfg, objects[k.owner], k.port, e))
    && forall k :: k in table ==> table[k] != []
  }

  /** After every apply the map shows the current objects. */
  lemma MapShowsObjects(cfg: Config, worlds: seq<ProxyWorld>, events: seq<Event<EndpointsObject>>)
    requires ProxyRun(cfg, worlds, events) && |events| > 0 && events[|events| - 1].Apply?
    ensures ShowsObjects(cfg, worlds[|events|].objects, worlds[|events|].table)
  {
    var objects, table := worlds[|events|].objects, worlds[|events|].table;
    EndpointsMapIsRebuilt(cfg, worlds, events);
    RunKeeps(Translate(cfg), NameOf, worlds, events, |events|);
    forall k ensures At(table, k) == if k.owner in objects then Behind(cfg, objects[k.owner], k.port) else [] {
      if k in table {
        var n :| n in objects && k in Contents(Translate(cfg)(objects[n]));
        assert k.owner == n;
      } else if k.owner in objects {
        assert k !in Contents(Translate(cfg)(objects[k.owner]));
      }
    }
    forall k: ServicePortName, e | k.owner in objects { ListedMeans(cfg, objects[k.owner], k.port, e); }
  }

  /** The local addresses counted for an object are those of its valid addresses on the proxy's own node. */
  lemma LocalsMean(cfg: Config, worlds: seq<ProxyWorld>, events: seq<Event<EndpointsObject>>, n: NamespacedName,
                   ip: string)
    requires ProxyRun(cfg, worlds, events) && |events| > 0 && events[|events| - 1].Apply?
    ensures var w := worlds[|events|];
            ip in LocalIPs(cfg, w.table, w.table.Keys, n) <==>
            n in w.objects &&
            exists name, e: EndpointInfo ::
              ShownIn(cfg, w.objects[n], name, e) && e.isLocal && cfg.ipPart(e.endpoint) == ip
  {
    var w := worlds[|events|];
    MapShowsObjects(cfg, worlds, events);
    if ip in LocalIPs(cfg, w.table, w.table.Keys, n) {
      var k, i :| k in w.table && k.owner == n && 0 <= i < |w.table[k]| && w.table[k][i].isLocal &&
                  cfg.ipPart(w.table[k][i].endpoint) == ip;
      assert w.table[k][i] in At(w.table, k);
    }
    if n in w.objects {
      forall name, e: EndpointInfo | ShownIn(cfg, w.objects[n], name, e) && e.isLocal && cfg.ipPart(e.endpoint) == ip
        ensures ip in LocalIPs(cfg, w.table, w.table.Keys, n)
      {
        var k := ServicePortName(n, name);
        assert e in At(w.table, k);
        var i :| 0 <= i < |w.table[k]| && w.table[k][i] == e;
        assert ip in LocalsOf(cfg, w.table[k], |w.table[k]|);
      }
    }
  }

  /** What an apply reports as stale is exactly what was in the map before it without an equal endpoint after it. */
  lemma StaleIsDifference(cfg: Config, worlds: seq<ProxyWorld>, events: seq<Event<EndpointsObject>>, i: nat)
    requires ProxyRun(cfg, worlds, events) && i < |events| && events[i].Apply?
    ensures forall e :: StaleInSome(worlds[i].items, worlds[i].items.Keys, e) <==>
                        IsStale(worlds[i].table, worlds[i + 1].table, e)
    ensures forall k :: BackedInSome(worlds[i].items, worlds[i].items.Keys, k) <==>
                        NewlyBacked(worlds[i].table, worlds[i + 1].table, k)
  {
    PendingStartsAtTable(Translate(cfg), NameOf, worlds, events, i);
  }

  /** The tracker and the map as a proxier uses them.  Whatever calls are made, they are a run. */
  class Proxier {
    const changes: EndpointChangeTracker
    const endpointsMap: EndpointsMap
    ghost var worlds: seq<ProxyWorld>
    ghost var events: seq<Event<EndpointsObject>>

    ghost predicate Valid()
      reads this, changes, endpointsMap
    {
      && IsRun(Translate(changes.cfg), NameOf, worlds, events)
      && changes.items == worlds[|events|].items
      && endpointsMap.m == worlds[|events|].table
    }

    constructor (cfg: Config)
      ensures Valid() && fresh(changes) && fresh(endpointsMap) && changes.cfg == cfg && events == []
    {
      changes := new EndpointChangeTracker(cfg);
      endpointsMap := new EndpointsMap();
      worlds, events := [World(map[], map[], map[])], [];
    }

    /** An event of the watch, which names the object last delivered as the previous one. */
    method OnEndpointsUpdate(previous: Option<EndpointsObject>, current: Option<EndpointsObject>)
      requires Valid()
      requires current.Some? ==> previous == Find(worlds[|events|].objects, NameOf(current.value))
      requires current.None? && previous.Some? ==> previous == Find(worlds[|events|].objects, NameOf(previous.value))
      modifies this, changes
      ensures Valid()
      ensures current.Some? ==> events == old(events) + [Deliver(NameOf(current.value), current)]
      ensures current.None? && previous.Some? ==> events == old(events) + [Deliver(NameOf(previous.value), None)]
      ensures current.None? && previous.None? ==> events == old(events)
    {
      var _ := changes.Update(previous, current);
      if current.None? && previous.None? { return; }
      ghost var e := Deliver(NameOf(if current.Some? then current.value else previous.value), current);
      RunGrows(Translate(changes.cfg), NameOf, worlds, events, e);
      worlds := worlds + [Next(Translate(changes.cfg), NameOf, worlds[|events|], e)];
      events := events + [e];
    }

    /** UpdateEndpointsMap: afterwards the map is the rebuilt one, what is reported is the difference, and the sizes
        are the numbers of different local addresses. */
    method UpdateEndpointsMap()
      returns (stale: seq<ServiceEndpoint>, names: seq<ServicePortName>, sizes: map<NamespacedName, nat>)
      requires Valid()
      modifies this, changes, endpointsMap
      ensures Valid() && |events| == |old(events)| + 1 && events[..|old(events)|] == old(events)
      ensures events[|old(events)|].Apply?
      ensures IsUnion(Translate(changes.cfg), worlds[|events|].objects, endpointsMap.m)
      ensures ShowsObjects(changes.cfg, worlds[|events|].objects, endpointsMap.m)
      ensures forall e :: e in stale <==> IsStale(old(endpointsMap.m), endpointsMap.m, e)
      ensures forall k :: k in names <==> NewlyBacked(old(endpointsMap.m), endpointsMap.m, k)
      ensures forall n ::
                var local := LocalIPs(changes.cfg, endpointsMap.m, endpointsMap.m.Keys, n);
                if n in sizes then sizes[n] == |local| > 0 else local == {}
    {
      ghost var n := |events|;
      ghost var order;
      stale, names, order := endpointsMap.Apply(changes);
      RunGrows(Translate(changes.cfg), NameOf, worlds, events, Event.Apply(order));
      worlds := worlds + [Next(Translate(changes.cfg), NameOf, worlds[n], Event.Apply(order))];
      events := events + [Event.Apply(order)];
      EndpointsMapIsRebuilt(changes.cfg, worlds, events);
      MapShowsObjects(changes.cfg, worlds, events);
      StaleIsDifference(changes.cfg, worlds, events, n);
      var localIPs := GetLocalEndpointIPs(changes.cfg, endpointsMap.m);
      sizes := map n | n in localIPs :: |localIPs[n]|;
    }
  }
}
