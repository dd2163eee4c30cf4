/** kube-proxy's service change tracker and service map (pkg/proxy/service.go). */
module Services {
  import opened ChangeTracking
  import opened Options

  datatype Protocol = TCP | UDP | SCTP

  datatype ServiceType = TypeClusterIP | TypeNodePort | TypeLoadBalancer | TypeExternalName

  datatype PortSpec = PortSpec(name: string, port: nat, protocol: Protocol, nodePort: nat)

  /** Session affinity, with the timeout that the API server guarantees for ClientIP. */
  datatype Affinity = NoAffinity | ClientIP(timeoutSeconds: nat)

  /** v1.Service, as far as the proxy reads it; `ingress` is the load balancer status. */
  datatype Service = Service(
    namespace: string, name: string, clusterIP: string, kind: ServiceType, trafficPolicyLocal: bool,
    healthCheckNodePort: nat, affinity: Affinity, externalIPs: seq<string>, sourceRanges: seq<string>,
    ingress: seq<string>, ports: seq<PortSpec>)

  /** BaseServiceInfo */
  datatype ServiceInfo = ServiceInfo(
    clusterIP: string, port: nat, protocol: Protocol, nodePort: nat, loadBalancerStatus: seq<string>,
    sessionAffinity: Affinity, stickyMaxAgeSeconds: nat, externalIPs: seq<string>, sourceRanges: seq<string>,
    healthCheckNodePort: nat, onlyNodeLocalEndpoints: bool)

  type ServiceTable = Table<ServiceInfo>

  /** The tracker's settings and the library calls it makes: IsIPv6String, IsIPv6CIDR and ParseIP(s).String(). */
  datatype Config = Config(isIPv6Mode: Option<bool>, isIPv6: string -> bool, isIPv6CIDR: string -> bool,
                           parseIP: string -> string)

  function NameOf(s: Service): NamespacedName {
    NamespacedName(s.namespace, s.name)
  }

  // ------------------------------------------------------------------ translating one object

  predicate ShouldSkip(s: Service) {
    s.clusterIP == "None" || s.clusterIP == "" || s.kind == TypeExternalName
  }

  predicate RequestsOnlyLocalTraffic(s: Service) {
    (s.kind == TypeLoadBalancer || s.kind == TypeNodePort) && s.trafficPolicyLocal
  }

  predicate NeedsHealthCheck(s: Service) {
    s.kind == TypeLoadBalancer && RequestsOnlyLocalTraffic(s)
  }

  /** Those of the first `n` strings for which the condition has the expected value, in order. */
  function Filtered(strs: seq<string>, n: nat, expected: bool, condition: string -> bool): seq<string>
    requires n <= |strs|
  {
    if n == 0 then []
    else
      Filtered(strs, n - 1, expected, condition) + if condition(strs[n - 1]) == expected then [strs[n - 1]] else []
  }

  /** All strings, if no family is wanted. */
  function Keep(strs: seq<string>, mode: Option<bool>, condition: string -> bool): seq<string> {
    if mode.None? then strs else Filtered(strs, |strs|, mode.value, condition)
  }

  /** filterWithCondition */
  method FilterWithCondition(strs: seq<string>, expected: bool, condition: string -> bool)
    returns (corrects: seq<string>, incorrects: seq<string>)
    ensures corrects == Filtered(strs, |strs|, expected, condition)
    ensures incorrects == Filtered(strs, |strs|, !expected, condition)
  {
    corrects, incorrects := [], [];
    for i := 0 to |strs|
      invariant corrects == Filtered(strs, i, expected, condition)
      invariant incorrects == Filtered(strs, i, !expected, condition)
    {
      if condition(strs[i]) != expected {
        incorrects := incorrects + [strs[i]];
      } else {
        corrects := corrects + [strs[i]];
      }
    }
  }

  function HealthPort(s: Service): nat {
    if NeedsHealthCheck(s) then s.healthCheckNodePort else 0
  }

  function NewInfo(cfg: Config, port: PortSpec, s: Service): ServiceInfo {
    ServiceInfo(
      cfg.parseIP(s.clusterIP), port.port, port.protocol, port.nodePort, s.ingress,
      s.affinity, if s.affinity.ClientIP? then s.affinity.timeoutSeconds else 0,
      Keep(s.externalIPs, cfg.isIPv6Mode, cfg.isIPv6), Keep(s.sourceRanges, cfg.isIPv6Mode, cfg.isIPv6CIDR),
      HealthPort(s), RequestsOnlyLocalTraffic(s))
  }

  /** newBaseServiceInfo */
  method NewBaseServiceInfo(cfg: Config, port: PortSpec, s: Service) returns (info: ServiceInfo)
    ensures info == NewInfo(cfg, port, s)
  {
    var onlyNodeLocalEndpoints := false;
    if RequestsOnlyLocalTraffic(s) { onlyNodeLocalEndpoints := true; }
    var stickyMaxAgeSeconds := 0;
    if s.affinity.ClientIP? { stickyMaxAgeSeconds := s.affinity.timeoutSeconds; }
    var externalIPs, sourceRanges := s.externalIPs, s.sourceRanges;
    if cfg.isIPv6Mode.Some? {
      var incorrect;
      externalIPs, incorrect := FilterWithCondition(s.externalIPs, cfg.isIPv6Mode.value, cfg.isIPv6);
      sourceRanges, incorrect := FilterWithCondition(s.sourceRanges, cfg.isIPv6Mode.value, cfg.isIPv6CIDR);
    }
    var healthCheckNodePort := 0;
    if NeedsHealthCheck(s) && s.healthCheckNodePort != 0 { healthCheckNodePort := s.healthCheckNodePort; }
    info := ServiceInfo(
      cfg.parseIP(s.clusterIP), port.port, port.protocol, port.nodePort, s.ingress, s.affinity, stickyMaxAgeSeconds,
      externalIPs, sourceRanges, healthCheckNodePort, onlyNodeLocalEndpoints);
  }

  predicate Proxied(cfg: Config, s: Service) {
    !ShouldSkip(s) && (cfg.isIPv6Mode.Some? ==> cfg.isIPv6(s.clusterIP) == cfg.isIPv6Mode.value)
  }

  /** The last of the first `n` ports with this name, which is the one that stays in the map. */
  function LastNamed(ports: seq<PortSpec>, n: nat, name: string): Option<PortSpec>
    requires n <= |ports|
  {
    if n == 0 then None
    else if ports[n - 1].name == name then Some(ports[n - 1])
    else LastNamed(ports, n - 1, name)
  }

  ghost predicate Lists(cfg: Config, s: Service, n: nat, table: ServiceTable)
    requires n <= |s.ports|
  {
    && (forall k :: k in table <==> k.owner == NameOf(s) && LastNamed(s.ports, n, k.port).Some?)
    && (forall k :: k in table ==> table[k] == NewInfo(cfg, LastNamed(s.ports, n, k.port).value, s))
  }

  lemma {:induction false} NamedIsListed(ports: seq<PortSpec>, n: nat, name: string)
    requires n <= |ports| && LastNamed(ports, n, name).Some?
    ensures exists i :: 0 <= i < n && ports[i].name == name
  {
    if ports[n - 1].name != name { NamedIsListed(ports, n - 1, name); }
  }

  /** serviceToServiceMap of a service that is not nil. */
  function ToTable(cfg: Config, s: Service): (table: Option<ServiceTable>)
    ensures table.Some? <==> Proxied(cfg, s)
    ensures table.Some? ==> Lists(cfg, s, |s.ports|, table.value)
  {
    if !Proxied(cfg, s) then None
    else
      var names := set i | 0 <= i < |s.ports| :: s.ports[i].name;
      var keys := set p | p in names && LastNamed(s.ports, |s.ports|, p).Some? :: ServicePortName(NameOf(s), p);
      assert forall p :: LastNamed(s.ports, |s.ports|, p).Some? ==> p in names by {
        forall p | LastNamed(s.ports, |s.ports|, p).Some? ensures p in names { NamedIsListed(s.ports, |s.ports|, p); }
      }
      Some(map k | k in keys :: NewInfo(cfg, LastNamed(s.ports, |s.ports|, k.port).value, s))
  }

  function Translate(cfg: Config): Service -> Option<ServiceTable> {
    s => ToTable(cfg, s)
  }

  method ServiceToServiceMap(cfg: Config, service: Option<Service>) returns (table: Option<ServiceTable>)
    ensures table == Translated(Translate(cfg), service)
  {
    if service.None? { return None; }
    var s := service.value;
    if ShouldSkip(s) { return None; }
    if |s.clusterIP| != 0 {
      if cfg.isIPv6Mode.Some? && cfg.isIPv6(s.clusterIP) != cfg.isIPv6Mode.value { return None; }
    }
    var serviceMap: ServiceTable := map[];
    for i := 0 to |s.ports|
      invariant Lists(cfg, s, i, serviceMap)
    {
      var baseSvcInfo := NewBaseServiceInfo(cfg, s.ports[i], s);
      serviceMap := serviceMap[ServicePortName(NameOf(s), s.ports[i].name) := baseSvcInfo];
    }
    assert serviceMap == ToTable(cfg, s).value;
    table := Some(serviceMap);
  }

  // ------------------------------------------------------------------ what an entry says of its object

  /** What is wanted of the first `n` of `listed` is the first `m` of `kept`, in the same order. */
  ghost predicate SiftsTo(listed: seq<string>, n: nat, kept: seq<string>, m: nat, wanted: string -> bool)
    requires n <= |listed| && m <= |kept|
  {
    if n == 0 then m == 0
    else if wanted(listed[n - 1]) then
      m > 0 && kept[m - 1] == listed[n - 1] && SiftsTo(listed, n - 1, kept, m - 1, wanted)
    else SiftsTo(listed, n - 1, kept, m, wanted)
  }

  ghost predicate Sifted(listed: seq<string>, kept: seq<string>, wanted: string -> bool) {
    SiftsTo(listed, |listed|, kept, |kept|, wanted)
  }

  /** Without a mode every address is of the right family. */
  function RightFamily(mode: Option<bool>, isIPv6: string -> bool): string -> bool {
    str => mode.None? || isIPv6(str) == mode.value
  }

  lemma {:induction false} SiftsToMore(listed: seq<string>, n: nat, kept: seq<string>, m: nat, wanted: string -> bool,
                                       more: seq<string>)
    requires n <= |listed| && m <= |kept| && SiftsTo(listed, n, kept, m, wanted)
    ensures SiftsTo(listed, n, kept + more, m, wanted)
  {
    if n > 0 { SiftsToMore(listed, n - 1, kept, if wanted(listed[n - 1]) then m - 1 else m, wanted, more); }
  }

  lemma {:induction false} FilteredSifts(strs: seq<string>, n: nat, expected: bool, condition: string -> bool)
    requires n <= |strs|
    ensures var kept := Filtered(strs, n, expected, condition);
            SiftsTo(strs, n, kept, |kept|, RightFamily(Some(expected), condition))
  {
    if n > 0 {
      var before, wanted := Filtered(strs, n - 1, expected, condition), RightFamily(Some(expected), condition);
      FilteredSifts(strs, n - 1, expected, condition);
      SiftsToMore(strs, n - 1, before, |before|, wanted, if wanted(strs[n - 1]) then [strs[n - 1]] else []);
    }
  }

  lemma {:induction false} AllSift(strs: seq<string>, n: nat, condition: string -> bool)
    requires n <= |strs|
    ensures SiftsTo(strs, n, strs, n, RightFamily(None, condition))
  {
    if n > 0 { AllSift(strs, n - 1, condition); }
  }

  lemma KeepSifts(strs: seq<string>, mode: Option<bool>, condition: string -> bool)
    ensures Sifted(strs, Keep(strs, mode, condition), RightFamily(mode, condition))
  {
    if mode.None? {
      AllSift(strs, |strs|, condition);
    } else {
      FilteredSifts(strs, |strs|, mode.value, condition);
    }
  }

  /** The entry says of the service and its port what the object says. */
  ghost predicate Shows(cfg: Config, s: Service, port: PortSpec, info: ServiceInfo) {
    && info.port == port.port && info.protocol == port.protocol && info.nodePort == port.nodePort
    && info.clusterIP == cfg.parseIP(s.clusterIP) && info.loadBalancerStatus == s.ingress
    && info.sessionAffinity == s.affinity
    && info.stickyMaxAgeSeconds == (match s.affinity case NoAffinity => 0 case ClientIP(timeout) => timeout)
    && Sifted(s.externalIPs, info.externalIPs, RightFamily(cfg.isIPv6Mode, cfg.isIPv6))
    && Sifted(s.sourceRanges, info.sourceRanges, RightFamily(cfg.isIPv6Mode, cfg.isIPv6CIDR))
    && (info.healthCheckNodePort != 0 ==>
          s.kind == TypeLoadBalancer && s.trafficPolicyLocal && info.healthCheckNodePort == s.healthCheckNodePort)
    && (s.kind == TypeLoadBalancer && s.trafficPolicyLocal ==> info.healthCheckNodePort == s.healthCheckNodePort)
    && (info.onlyNodeLocalEndpoints <==> s.trafficPolicyLocal && s.kind in {TypeLoadBalancer, TypeNodePort})
  }

  /** The service has a cluster IP of the right family and is not just a name. */
  ghost predicate HasClusterIP(cfg: Config, s: Service) {
    && s.clusterIP !in {"None", ""} && s.kind != TypeExternalName
    && RightFamily(cfg.isIPv6Mode, cfg.isIPv6)(s.clusterIP)
  }

  /** The last port of the service that has this name. */
  ghost predicate IsLastNamed(s: Service, i: nat, name: string) {
    i < |s.ports| && s.ports[i].name == name && forall j :: i < j < |s.ports| ==> s.ports[j].name != name
  }

  lemma {:induction false} LastNamedIsLast(ports: seq<PortSpec>, n: nat, name: string) returns (i: nat)
    requires n <= |ports| && LastNamed(ports, n, name).Some?
    ensures i < n && ports[i] == LastNamed(ports, n, name).value && ports[i].name == name
    ensures forall j :: i < j < n ==> ports[j].name != name
  {
    if ports[n - 1].name == name { i := n - 1; } else { i := LastNamedIsLast(ports, n - 1, name); }
  }

  lemma {:induction false} ListedIsNamed(ports: seq<PortSpec>, n: nat, i: nat)
    requires i < n <= |ports|
    ensures LastNamed(ports, n, ports[i].name).Some?
  {
    if ports[n - 1].name != ports[i].name { ListedIsNamed(ports, n - 1, i); }
  }

  lemma NewInfoShows(cfg: Config, port: PortSpec, s: Service)
    ensures Shows(cfg, s, port, NewInfo(cfg, port, s))
  {
    KeepSifts(s.externalIPs, cfg.isIPv6Mode, cfg.isIPv6);
    KeepSifts(s.sourceRanges, cfg.isIPv6Mode, cfg.isIPv6CIDR);
  }

  /** The table of an object has an entry for exactly the names of its ports, and each shows the last port so named. */
  lemma TableShows(cfg: Config, s: Service, k: ServicePortName)
    ensures k in Contents(ToTable(cfg, s)) <==>
            k.owner == NameOf(s) && HasClusterIP(cfg, s) && exists i :: 0 <= i < |s.ports| && s.ports[i].name == k.port
    ensures k in Contents(ToTable(cfg, s)) ==>
              exists i: nat :: IsLastNamed(s, i, k.port) && Shows(cfg, s, s.ports[i], Contents(ToTable(cfg, s))[k])
  {
    if k in Contents(ToTable(cfg, s)) {
      var i := LastNamedIsLast(s.ports, |s.ports|, k.port);
      NewInfoShows(cfg, s.ports[i], s);
      assert IsLastNamed(s, i, k.port);
    } else if k.owner == NameOf(s) && HasClusterIP(cfg, s) {
      forall i | 0 <= i < |s.ports| ensures s.ports[i].name != k.port { ListedIsNamed(s.ports, |s.ports|, i); }
    }
  }

  // ------------------------------------------------------------------ the tracker and the map

  class ServiceChangeTracker {
    const cfg: Config
    var items: Items<ServiceInfo>

    constructor (cfg: Config)
      ensures this.cfg == cfg && items == map[]
    {
      this.cfg := cfg;
      items := map[];
    }

    method Update(previous: Option<Service>, current: Option<Service>) returns (pending: bool)
      modifies this
      ensures previous.None? && current.None? ==> items == old(items) && !pending
      ensures !(previous.None? && current.None?) ==>
                var name := NameOf(if current.Some? then current.value else previous.value);
                && items == Record(old(items), name, Translated(Translate(cfg), previous),
                                   Translated(Translate(cfg), current))
                && pending == (items != map[])
    {
      var svc := if current.Some? then current else previous;
      if svc.None? { return false; }
      var namespacedName := NameOf(svc.value);
      var before := None;
      if namespacedName !in items { before := ServiceToServiceMap(cfg, previous); }
      var after := ServiceToServiceMap(cfg, current);
      items := RecordChange(items, namespacedName, before, after);
      pending := |items| > 0;
    }
  }

  /** Filter: drop from `previous` the ports that `other` still has. */
  method Filter(previous: ServiceTable, other: ServiceTable) returns (left: ServiceTable)
    ensures left == previous - other.Keys
  {
    left := previous;
    var keys := previous.Keys;
    while keys != {}
      invariant keys <= previous.Keys
      invariant left == previous - (other.Keys * (previous.Keys - keys))
      decreases keys
    {
      var k :| k in keys;
      keys := keys - {k};
      if k in other { left := left - {k}; }
    }
  }

  /** One of these ports carries UDP at this cluster IP. */
  ghost predicate UsedByUDP(table: ServiceTable, ports: set<ServicePortName>, ip: string) {
    exists k :: k in ports && k in table && table[k].protocol == UDP && table[k].clusterIP == ip
  }

  /** The port is known, and the change takes it away. */
  ghost predicate Drops(before: ServiceTable, change: Change<ServiceInfo>, k: ServicePortName) {
    k in Contents(change.previous) && k !in Contents(change.current) && k in before
  }

  ghost predicate StaleInSome(before: ServiceTable, items: Items<ServiceInfo>, done: set<NamespacedName>, ip: string) {
    exists k: ServicePortName ::
      k.owner in done && k.owner in items && Drops(before, items[k.owner], k) &&
      before[k].protocol == UDP && before[k].clusterIP == ip
  }

  /** Some change asks to remove a port that the map does not have. */
  ghost predicate MissingInSome(before: ServiceTable, items: Items<ServiceInfo>, done: set<NamespacedName>) {
    exists k: ServicePortName ::
      k.owner in done && k.owner in items && k !in before &&
      k in Contents(items[k.owner].previous) && k !in Contents(items[k.owner].current)
  }

  class ServiceMap {
    var m: ServiceTable

    constructor ()
      ensures m == map[]
    {
      m := map[];
    }

    method Merge(other: ServiceTable)
      modifies this
      ensures m == old(m) + other
    {
      var keys := other.Keys;
      while keys != {}
        invariant keys <= other.Keys
        invariant m == old(m) + map k | k in other && k !in keys :: other[k]
        decreases keys
      {
        var k :| k in keys;
        keys := keys - {k};
        m := m[k := other[k]];
      }
    }

    /** Unmerge; `missing` tells that the "doesn't exists" error was logged. */
    method Unmerge(other: ServiceTable, stale: set<string>) returns (stale': set<string>, missing: bool)
      modifies this
      ensures m == old(m) - other.Keys
      ensures forall ip :: ip in stale' <==> ip in stale || UsedByUDP(old(m), other.Keys, ip)
      ensures missing <==> exists k :: k in other && k !in old(m)
    {
      stale', missing := stale, false;
      var keys := other.Keys;
      while keys != {}
        invariant keys <= other.Keys
        invariant m == old(m) - (other.Keys - keys)
        invariant forall ip :: ip in stale' <==> ip in stale || UsedByUDP(old(m), other.Keys - keys, ip)
        invariant missing <==> exists k :: k in other && k !in keys && k !in old(m)
        decreases keys
      {
        var k :| k in keys;
        keys := keys - {k};
        if k in m {
          if m[k].protocol == UDP { stale' := stale' + {m[k].clusterIP}; }
          m := m - {k};
        } else {
          missing := true;
        }
      }
    }

    /** The body of the loop in apply. */
    method ApplyChange(change: Change<ServiceInfo>, stale: set<string>) returns (stale': set<string>, missing: bool)
      modifies this
      ensures m == Replace(old(m), change)
      ensures stale' == stale + DroppedUDP(old(m), change)
      ensures missing <==> DropsMissing(old(m), change)
    {
      OrdersAgree(m, change);
      Merge(Contents(change.current));
      var left := Filter(Contents(change.previous), Contents(change.current));
      stale', missing := Unmerge(left, stale);
    }

    /** apply; `order` is the order in which Go's range happens to visit the pending changes. */
    method Apply(changes: ServiceChangeTracker)
      returns (stale: set<string>, missing: bool, ghost order: seq<NamespacedName>)
      modifies this, changes
      ensures changes.items == map[] && Ordering(old(changes.items), order)
      ensures m == ApplyInOrder(old(m), old(changes.items), order)
      ensures stale == StaleInOrder(old(m), old(changes.items), order)
      ensures missing <==> MissingInOrder(old(m), old(changes.items), order)
    {
      stale, missing, order := {}, false, [];
      ghost var before, items := m, changes.items;
      var keys := changes.items.Keys;
      while keys != {}
        invariant changes.items == items && keys <= items.Keys
        invariant Visits(order, items.Keys - keys) && m == ApplyInOrder(before, items, order)
        invariant stale == StaleInOrder(before, items, order)
        invariant missing <==> MissingInOrder(before, items, order)
        decreases keys
      {
        var n :| n in keys;
        var change := changes.items[n];
        ApplyInOrderOneMore(before, items, order, n);
        VisitsOneMore(order, items.Keys, keys, n);
        InOrderOneMore(before, items, order, n);
        var gone;
        stale, gone := ApplyChange(change, stale);
        missing := missing || gone;
        order, keys := order + [n], keys - {n};
      }
      assert items.Keys - keys == items.Keys;
      changes.items := map[];
    }
  }

  /** The cluster IPs of the UDP ports that the change drops from the table. */
  ghost function DroppedUDP(table: ServiceTable, change: Change<ServiceInfo>): set<string> {
    var merged := table + Contents(change.current);
    set k | k in Contents(change.previous) - Contents(change.current).Keys && k in merged && merged[k].protocol == UDP
      :: merged[k].clusterIP
  }

  /** The change asks to drop a port that the table does not have. */
  ghost predicate DropsMissing(table: ServiceTable, change: Change<ServiceInfo>) {
    exists k :: k in Contents(change.previous) - Contents(change.current).Keys && k !in table + Contents(change.current)
  }

  ghost function StaleInOrder(table: ServiceTable, items: Items<ServiceInfo>, order: seq<NamespacedName>): set<string>
    requires forall n :: n in order ==> n in items
  {
    if order == [] then {}
    else
      var last := |order| - 1;
      StaleInOrder(table, items, order[..last]) +
      DroppedUDP(ApplyInOrder(table, items, order[..last]), items[order[last]])
  }

  ghost predicate MissingInOrder(table: ServiceTable, items: Items<ServiceInfo>, order: seq<NamespacedName>)
    requires forall n :: n in order ==> n in items
  {
    order != [] &&
    var last := |order| - 1;
    MissingInOrder(table, items, order[..last]) ||
    DropsMissing(ApplyInOrder(table, items, order[..last]), items[order[last]])
  }

  lemma InOrderOneMore(table: ServiceTable, items: Items<ServiceInfo>, order: seq<NamespacedName>, n: NamespacedName)
    requires n in items && forall n :: n in order ==> n in items
    ensures StaleInOrder(table, items, order + [n]) ==
            StaleInOrder(table, items, order) + DroppedUDP(ApplyInOrder(table, items, order), items[n])
    ensures MissingInOrder(table, items, order + [n]) <==>
              MissingInOrder(table, items, order) || DropsMissing(ApplyInOrder(table, items, order), items[n])
  {
    assert (order + [n])[..|order|] == order;
  }

  /** Where every change keeps to the ports of its own object, what is reported does not depend on the order. */
  lemma {:induction false} OwnedInAnyOrder(before: ServiceTable, items: Items<ServiceInfo>, order: seq<NamespacedName>,
                                           done: set<NamespacedName>)
    requires Owned(items) && Visits(order, done) && done <= items.Keys
    ensures forall ip :: ip in StaleInOrder(before, items, order) <==> StaleInSome(before, items, done, ip)
    ensures MissingInOrder(before, items, order) <==> MissingInSome(before, items, done)
  {
    if order != [] {
      var last := |order| - 1;
      var front, n := order[..last], order[last];
      var others := done - {n};
      assert order == front + [n];
      assert Visits(front, others) && others + {n} == done;
      OwnedInAnyOrder(before, items, front, others);
      AnyOrderApplies(before, items, front);
      assert (set x | x in front) == others;
      var table := ApplyInOrder(before, items, front);
      OneMoreChange(before, items, others, n, Contents(items[n].previous) - Contents(items[n].current).Keys,
                    table + Contents(items[n].current));
      InOrderOneMore(before, items, front, n);
    }
  }

  lemma OneMoreChange(before: ServiceTable, items: Items<ServiceInfo>, done: set<NamespacedName>, n: NamespacedName,
                      left: ServiceTable, merged: ServiceTable)
    requires Owned(items) && n in items && n !in done && done <= items.Keys
    requires left == Contents(items[n].previous) - Contents(items[n].current).Keys
    requires forall k: ServicePortName :: k.owner == n && k !in Contents(items[n].current) ==>
               (k in merged <==> k in before) && (k in merged ==> merged[k] == before[k])
    ensures forall ip :: StaleInSome(before, items, done + {n}, ip) <==>
              StaleInSome(before, items, done, ip) || UsedByUDP(merged, left.Keys, ip)
    ensures MissingInSome(before, items, done + {n}) <==>
              MissingInSome(before, items, done) || exists k :: k in left && k !in merged
  {
  }

  // ------------------------------------------------------------------ health check ports

  /** All ports of one service that have a health check port have the same one. */
  ghost predicate OneHealthPort(table: ServiceTable) {
    forall k, k' :: k in table && k' in table && k.owner == k'.owner ==>
      table[k].healthCheckNodePort == table[k'].healthCheckNodePort
  }

  /** The second half of UpdateServiceMap; the conversion to uint16 keeps the low 16 bits. */
  method HealthCheckNodePorts(table: ServiceTable) returns (ports: map<NamespacedName, nat>)
    ensures forall n :: n in ports <==> exists k :: k in table && k.owner == n && table[k].healthCheckNodePort != 0
    ensures OneHealthPort(table) ==>
              forall k :: k in table && k.owner in ports ==> ports[k.owner] == table[k].healthCheckNodePort % 0x1_0000
  {
    ports := map[];
    var keys := table.Keys;
    while keys != {}
      invariant keys <= table.Keys
      invariant forall n :: n in ports <==>
                  exists k :: k in table && k !in keys && k.owner == n && table[k].healthCheckNodePort != 0
      invariant OneHealthPort(table) ==>
                  forall k :: k in table && k.owner in ports ==>
                                ports[k.owner] == table[k].healthCheckNodePort % 0x1_0000
      decreases keys
    {
      var k :| k in keys;
      keys := keys - {k};
      if table[k].healthCheckNodePort != 0 {
        ports := ports[k.owner := table[k].healthCheckNodePort % 0x1_0000];
      }
    }
  }

  // ------------------------------------------------------------------ whole runs

  type ProxyWorld = World<Service, ServiceInfo>

  ghost predicate ProxyRun(cfg: Config, worlds: seq<ProxyWorld>, events: seq<Event<Service>>) {
    IsRun(Translate(cfg), NameOf, worlds, events)
  }

  /** serviceMap is what a rebuild over all current Service objects would give, after every apply. */
  lemma ServiceMapIsRebuilt(cfg: Config, worlds: seq<ProxyWorld>, events: seq<Event<Service>>)
    requires ProxyRun(cfg, worlds, events) && |events| > 0 && events[|events| - 1].Apply?
    ensures IsUnion(Translate(cfg), worlds[|events|].objects, worlds[|events|].table)
  {
    IncrementalIsRebuilt(Translate(cfg), NameOf, worlds, events);
  }

  /** The map has an entry for exactly the ports of the services with a cluster IP, and each says what the service's
      object says of the last port of that name. */
  ghost predicate ShowsObjects(cfg: Config, objects: map<NamespacedName, Service>, table: ServiceTable) {
    forall k: ServicePortName ::
      && (k in table <==>
            k.owner in objects && HasClusterIP(cfg, objects[k.owner]) &&
            exists i :: 0 <= i < |objects[k.owner].ports| && objects[k.owner].ports[i].name == k.port)
      && (k in table ==>
            var s := objects[k.owner];
            exists i: nat :: IsLastNamed(s, i, k.port) && Shows(cfg, s, s.ports[i], table[k]))
  }

  /** After every apply the map shows the current objects. */
  lemma MapShowsObjects(cfg: Config, worlds: seq<ProxyWorld>, events: seq<Event<Service>>)
    requires ProxyRun(cfg, worlds, events) && |events| > 0 && events[|events| - 1].Apply?
    ensures ShowsObjects(cfg, worlds[|events|].objects, worlds[|events|].table)
  {
    var objects, table := worlds[|events|].objects, worlds[|events|].table;
    ServiceMapIsRebuilt(cfg, worlds, events);
    RunKeeps(Translate(cfg), NameOf, worlds, events, |events|);
    forall k: ServicePortName
      ensures k in table <==> k.owner in objects && k in Contents(ToTable(cfg, objects[k.owner]))
      ensures k in table ==> table[k] == Contents(ToTable(cfg, objects[k.owner]))[k]
      ensures k.owner in objects ==> NameOf(objects[k.owner]) == k.owner
    {
      if k in table {
        var n :| n in objects && k in Contents(Translate(cfg)(objects[n]));
        TableShows(cfg, objects[n], k);
      }
      if k.owner in objects && k in Contents(ToTable(cfg, objects[k.owner])) {
        assert k in Contents(Translate(cfg)(objects[k.owner]));
      }
    }
    forall k: ServicePortName | k.owner in objects { TableShows(cfg, objects[k.owner], k); }
  }

  /** An apply reports exactly the cluster IPs of UDP ports that were in the map before it and are gone after it, and
      unmerge never meets a port that the map does not have. */
  lemma StaleIsDifference(cfg: Config, worlds: seq<ProxyWorld>, events: seq<Event<Service>>, i: nat)
    requires ProxyRun(cfg, worlds, events) && i < |events| && events[i].Apply?
    ensures forall ip :: StaleInSome(worlds[i].table, worlds[i].items, worlds[i].items.Keys, ip) <==>
                         UsedByUDP(worlds[i].table, worlds[i].table.Keys - worlds[i + 1].table.Keys, ip)
    ensures !MissingInSome(worlds[i].table, worlds[i].items, worlds[i].items.Keys)
  {
    PendingStartsAtTable(Translate(cfg), NameOf, worlds, events, i);
  }

  /** After every apply, all ports of a service carry that service's own health check port, so the map reported by
      UpdateServiceMap does not depend on iteration order. */
  lemma HealthPortsDetermined(cfg: Config, worlds: seq<ProxyWorld>, events: seq<Event<Service>>)
    requires ProxyRun(cfg, worlds, events) && |events| > 0 && events[|events| - 1].Apply?
    ensures OneHealthPort(worlds[|events|].table)
    ensures forall k :: k in worlds[|events|].table ==>
              && k.owner in worlds[|events|].objects
              && worlds[|events|].table[k].healthCheckNodePort == HealthPort(worlds[|events|].objects[k.owner])
  {
    var w := worlds[|events|];
    ServiceMapIsRebuilt(cfg, worlds, events);
    RunKeeps(Translate(cfg), NameOf, worlds, events, |events|);
    forall k | k in w.table
      ensures k.owner in w.objects && w.table[k].healthCheckNodePort == HealthPort(w.objects[k.owner])
    {
      var n :| n in w.objects && k in Contents(ToTable(cfg, w.objects[n]));
      OwnHealthPort(cfg, w.objects[n], k);
    }
  }

  lemma OwnHealthPort(cfg: Config, s: Service, k: ServicePortName)
    requires k in Contents(ToTable(cfg, s))
    ensures k.owner == NameOf(s) && Contents(ToTable(cfg, s))[k].healthCheckNodePort == HealthPort(s)
  {
  }

  /** The tracker and the map as a proxier uses them.  Whatever calls are made, they are a run. */
  class Proxier {
    const changes: ServiceChangeTracker
    const serviceMap: ServiceMap
    ghost var worlds: seq<ProxyWorld>
    ghost var events: seq<Event<Service>>

    ghost predicate Valid()
      reads this, changes, serviceMap
    {
      && IsRun(Translate(changes.cfg), NameOf, worlds, events)
      && changes.items == worlds[|events|].items
      && serviceMap.m == worlds[|events|].table
    }

    constructor (cfg: Config)
      ensures Valid() && fresh(changes) && fresh(serviceMap) && changes.cfg == cfg && events == []
    {
      changes := new ServiceChangeTracker(cfg);
      serviceMap := new ServiceMap();
      worlds, events := [World(map[], map[], map[])], [];
    }

    /** An event of the watch, which names the object last delivered as the previous one. */
    method OnServiceUpdate(previous: Option<Service>, current: Option<Service>)
      requires Valid()
      requires current.Some? ==> previous == Find(worlds[|events|].objects, NameOf(current.value))
      requires current.None? && previous.Some? ==> previous == Find(worlds[|events|].objects, NameOf(previous.value))
      modifies this, changes
      ensures Valid()
      ensures current.Some? ==> events == old(events) + [Deliver(NameOf(current.value), current)]
      ensures current.None? && previous.Some? ==> events == old(events) + [Deliver(NameOf(previous.value), None)]
      ensures current.None? && previous.None? ==> events == old(events)
    {
      var _ := changes.Update(previous, current);
      if current.None? && previous.None? { return; }
      ghost var e := Deliver(NameOf(if current.Some? then current.value else previous.value), current);
      RunGrows(Translate(changes.cfg), NameOf, worlds, events, e);
      worlds := worlds + [Next(Translate(changes.cfg), NameOf, worlds[|events|], e)];
      events := events + [e];
    }

    /** UpdateServiceMap: afterwards the map is the rebuilt one, the stale IPs are those of the UDP ports that went, no
        error was logged, and each service's health check port is its own. */
    method UpdateServiceMap() returns (stale: set<string>, missing: bool, ports: map<NamespacedName, nat>)
      requires Valid()
      modifies this, changes, serviceMap
      ensures Valid() && |events| == |old(events)| + 1 && events[..|old(events)|] == old(events)
      ensures events[|old(events)|].Apply?
      ensures IsUnion(Translate(changes.cfg), worlds[|events|].objects, serviceMap.m)
      ensures ShowsObjects(changes.cfg, worlds[|events|].objects, serviceMap.m)
      ensures forall ip :: ip in stale <==> UsedByUDP(old(serviceMap.m), old(serviceMap.m).Keys - serviceMap.m.Keys, ip)
      ensures !missing
      ensures forall n :: n in ports <==>
                exists k :: k in serviceMap.m && k.owner == n && serviceMap.m[k].healthCheckNodePort != 0
      ensures forall n :: n in ports ==>
                && n in worlds[|events|].objects && ports[n] == HealthPort(worlds[|events|].objects[n]) % 0x1_0000
    {
      ghost var n := |events|;
      ghost var before, order := worlds[n], [];
      stale, missing, order := serviceMap.Apply(changes);
      RunKeeps(Translate(changes.cfg), NameOf, worlds, events, n);
      OwnedInAnyOrder(before.table, before.items, order, before.items.Keys);
      RunGrows(Translate(changes.cfg), NameOf, worlds, events, Event.Apply(order));
      worlds := worlds + [Next(Translate(changes.cfg), NameOf, before, Event.Apply(order))];
      events := events + [Event.Apply(order)];
      ServiceMapIsRebuilt(changes.cfg, worlds, events);
      MapShowsObjects(changes.cfg, worlds, events);
      StaleIsDifference(changes.cfg, worlds, events, n);
      HealthPortsDetermined(changes.cfg, worlds, events);
      ports := HealthCheckNodePorts(serviceMap.m);
    }
  }
}
