/** The tunnel table: creating, updating and deleting tunnels, with the database's own constraints, first as
    calls on their own and then as interleaved calls that read and write at different times. */
module TunnelTable {
  import opened Bytes
  import opened Protocol
  import Hostname

  datatype Access = Public | Allowlist
  datatype Failure = BadRequest | Conflict | NotFound | Internal
  datatype Result<T> = Ok(value: T) | Err(failure: Failure)

  /** A stored tunnel; `cidrs` are the networks of its allowlist. */
  datatype Tunnel = Tunnel(
    agent: Uuid, name: string, localHost: string, localPort: nat, kind: Kind, scheme: Scheme,
    remotePort: Option<nat>, hostname: Option<string>, access: Access, cidrs: seq<nat>, enabled: bool)

  datatype CreateRequest = CreateRequest(
    name: string, localHost: string, localPort: nat, kind: Kind, scheme: Scheme,
    remotePort: Option<nat>, hostname: Option<string>, access: Access, cidrs: seq<nat>, enabled: bool, allowLan: bool)

  datatype UpdateRequest = UpdateRequest(
    name: Option<string>, localHost: Option<string>, localPort: Option<nat>, kind: Option<Kind>, scheme: Option<Scheme>,
    remotePort: Option<nat>, hostname: Option<string>, access: Option<Access>, cidrs: Option<seq<nat>>,
    enabled: Option<bool>, allowLan: bool)

  /** `loopback` says which hosts are `localhost` or parse as a loopback address. */
  datatype Config = Config(portStart: nat, portEnd: nat, base: string, loopback: string -> bool)

  // ---------------------------------------------------------------- validation

  predicate KindScheme(kind: Kind, scheme: Scheme) {
    match kind
    case Tcp => scheme == TcpScheme
    case Udp => scheme == UdpScheme
    case Web => scheme == Http || scheme == Https
  }

  function CharBytes(c: char): nat {
    var n := c as int;
    if n < 0x80 then 1 else if n < 0x800 then 2 else if n < 0x10000 then 3 else 4
  }

  function ByteLength(s: string): nat {
    if s == [] then 0 else CharBytes(s[0]) + ByteLength(s[1..])
  }

  predicate HostOk(c: Config, host: string, allowLan: bool) {
    var h := Hostname.Trim(host);
    && h != [] && ByteLength(h) <= 253 && (forall i :: 0 <= i < |h| ==> !Hostname.IsSpace(h[i]))
    && (c.loopback(h) || allowLan)
  }

  predicate PortOk(c: Config, port: nat) {
    c.portStart <= port <= c.portEnd
  }

  predicate CreateOk(c: Config, r: CreateRequest) {
    && Hostname.Trim(r.name) != [] && |r.name| <= 80
    && r.localPort != 0
    && HostOk(c, r.localHost, r.allowLan)
    && (r.remotePort.Some? ==> PortOk(c, r.remotePort.value))
    && KindScheme(r.kind, r.scheme)
    && (if r.kind == Web then Hostname.NormalizeHostname(c.base, AskedName(r)).Some? else r.hostname == None)
    && (r.access == Allowlist ==> r.cidrs != [])
  }

  function AskedName(r: CreateRequest): string {
    if r.hostname.Some? then r.hostname.value else r.name
  }

  /** Longer by one character, a string is longer by the bytes of that character's UTF-8 code. */
  lemma {:induction false} ByteLengthSnoc(s: string, c: char)
    ensures ByteLength(s + [c]) == ByteLength(s)
              + if c as int < 0x80 then 1 else if c as int < 0x800 then 2 else if c as int < 0x10000 then 3 else 4
  {
    if s == [] {
      assert s + [c] == [c] && [c][1..] == [];
    } else {
      assert (s + [c])[0] == s[0] && (s + [c])[1..] == s[1..] + [c];
      ByteLengthSnoc(s[1..], c);
    }
  }

  /** `validate_tunnel`. */
  predicate TunnelOk(t: Tunnel) {
    && t.name != [] && |t.name| <= 80
    && (t.access == Allowlist ==> t.cidrs != [])
    && KindScheme(t.kind, t.scheme)
    && (if t.kind == Web then t.hostname.Some? else t.remotePort.Some?)
  }

  // ---------------------------------------------------------------- database constraints

  type Rows = map<Uuid, Tunnel>

  /** The check constraint on the kind. */
  predicate ShapeOk(t: Tunnel) {
    if t.kind == Web then t.remotePort == None && t.hostname.Some? else t.remotePort.Some? && t.hostname == None
  }

  /** The foreign key: every tunnel belongs to a device. */
  predicate OwnersOk(rows: Rows, devices: set<Uuid>) {
    forall id :: id in rows ==> rows[id].agent in devices
  }

  /** The unique indexes: one port per kind, one lower-cased name. */
  predicate Clash(t: Tunnel, u: Tunnel) {
    t.kind == u.kind &&
    match t.kind
    case Web => t.hostname.Some? && u.hostname.Some? && Hostname.Lower(t.hostname.value) == Hostname.Lower(u.hostname.value)
    case _ => t.remotePort.Some? && t.remotePort == u.remotePort
  }

  predicate Clashes(rows: Rows, id: Uuid, t: Tunnel) {
    exists j :: j in rows && j != id && Clash(rows[j], t)
  }

  /** What every stored tunnel is. */
  predicate WellFormed(c: Config, t: Tunnel) {
    && 1 <= |t.name| <= 80
    && t.localPort != 0
    && KindScheme(t.kind, t.scheme)
    && ShapeOk(t)
    && (t.remotePort.Some? ==> PortOk(c, t.remotePort.value))
    && (t.hostname.Some? ==> FullName(c, t.hostname.value))
    && (t.access == Allowlist ==> t.cidrs != [])
  }

  predicate FullName(c: Config, name: string) {
    |name| > |c.base| && var stem := name[..|name| - |c.base| - 1]; Hostname.Label(stem) && name == stem + "." + c.base
  }

  ghost predicate TableOk(c: Config, rows: Rows) {
    && (forall id :: id in rows ==> WellFormed(c, rows[id]))
    && (forall i, j :: i in rows && j in rows && i != j ==> !Clash(rows[i], rows[j]))
  }

  lemma NormalizedIsFull(c: Config, value: string)
    requires Hostname.NormalizeHostname(c.base, value).Some?
    ensures FullName(c, Hostname.NormalizeHostname(c.base, value).value)
  {
    var stem := Hostname.NormalizedForm(c.base, value);
    var name := stem + "." + c.base;
    assert name[..|name| - |c.base| - 1] == stem;
  }

  lemma TrimIsShorter(s: string)
    ensures |Hostname.Trim(s)| <= |s|
  {
  }

  // ---------------------------------------------------------------- port allocation

  predicate Uses(rows: Rows, kind: Kind, port: nat) {
    exists id :: id in rows && rows[id].kind == kind && rows[id].remotePort == Some(port)
  }

  /** The least free port of the pool, or none exactly when the pool is full. */
  predicate LeastFree(c: Config, rows: Rows, kind: Kind, r: Option<nat>) {
    match r
    case Some(port) => PortOk(c, port) && !Uses(rows, kind, port) && forall q :: c.portStart <= q < port ==> Uses(rows, kind, q)
    case None => forall q :: c.portStart <= q <= c.portEnd ==> Uses(rows, kind, q)
  }

  /** A port of the pool that is passed over belongs to a tunnel of that kind. */
  lemma PassedOverIsUsed(c: Config, rows: Rows, kind: Kind, r: Option<nat>, q: nat) returns (id: Uuid)
    requires LeastFree(c, rows, kind, r) && c.portStart <= q <= c.portEnd && (r.Some? ==> q < r.value)
    ensures id in rows && rows[id].kind == kind && rows[id].remotePort == Some(q)
  {
    assert Uses(rows, kind, q);
    id :| id in rows && rows[id].kind == kind && rows[id].remotePort == Some(q);
  }

  /** Exhaustion needs as many tunnels of the kind as the pool has ports. */
  lemma FullPoolHasAsManyTunnels(c: Config, rows: Rows, kind: Kind) returns (ids: set<Uuid>)
    requires LeastFree(c, rows, kind, None) && c.portStart <= c.portEnd
    ensures ids <= rows.Keys && |ids| == c.portEnd - c.portStart + 1
    ensures forall id :: id in ids ==> rows[id].kind == kind && rows[id].remotePort.Some? && PortOk(c, rows[id].remotePort.value)
  {
    ids := UsersOf(rows, kind, c.portStart, c.portEnd + 1);
  }

  lemma {:induction false} UsersOf(rows: Rows, kind: Kind, low: nat, high: nat) returns (ids: set<Uuid>)
    requires low <= high && forall q :: low <= q < high ==> Uses(rows, kind, q)
    ensures ids <= rows.Keys && |ids| == high - low
    ensures forall id :: id in ids ==> rows[id].kind == kind && rows[id].remotePort.Some? && low <= rows[id].remotePort.value < high
    decreases high
  {
    if low == high {
      ids := {};
    } else {
      ids := UsersOf(rows, kind, low, high - 1);
      assert Uses(rows, kind, high - 1);
      var id :| id in rows && rows[id].kind == kind && rows[id].remotePort == Some(high - 1);
      assert id !in ids;
      ids := ids + {id};
    }
  }

  lemma {:induction false} Subset(a: set<Uuid>, b: set<Uuid>)
    requires a <= b
    ensures |a| <= |b|
    decreases |a|
  {
    if a != {} {
      var x :| x in a;
      Subset(a - {x}, b - {x});
    }
  }

  // ---------------------------------------------------------------- what create and update store

  /** The tunnel a create request asks for, on port `port` if it is a port tunnel. */
  function Requested(c: Config, agent: Uuid, r: CreateRequest, port: nat): Tunnel {
    Tunnel(agent, Hostname.Trim(r.name), Hostname.Trim(r.localHost), r.localPort, r.kind, r.scheme,
           if r.kind == Web then None else Some(port),
           if r.kind == Web then Hostname.NormalizeHostname(c.base, AskedName(r)) else None,
           r.access, r.cidrs, r.enabled)
  }

  function Or<T>(a: Option<T>, b: T): T {
    if a.Some? then a.value else b
  }

  /** A tunnel with the fields of an update request replaced. */
  function Edited(c: Config, t: Tunnel, r: UpdateRequest): Tunnel {
    t.(name := if r.name.Some? then Hostname.Trim(r.name.value) else t.name,
       localHost := if r.localHost.Some? then Hostname.Trim(r.localHost.value) else t.localHost,
       localPort := Or(r.localPort, t.localPort),
       scheme := Or(r.scheme, t.scheme),
       remotePort := if r.remotePort.Some? then r.remotePort else t.remotePort,
       hostname := if r.hostname.Some? then Hostname.NormalizeHostname(c.base, r.hostname.value) else t.hostname,
       access := Or(r.access, t.access),
       cidrs := Or(r.cidrs, t.cidrs),
       enabled := Or(r.enabled, t.enabled))
  }

  predicate UpdateOk(c: Config, t: Tunnel, r: UpdateRequest) {
    && (r.localHost.Some? ==> HostOk(c, r.localHost.value, r.allowLan))
    && (r.localPort.Some? ==> r.localPort.value != 0)
    && (r.remotePort.Some? ==> t.kind != Web && PortOk(c, r.remotePort.value))
    && (r.kind.Some? ==> r.kind.value == t.kind)
    && (r.hostname.Some? ==> t.kind == Web && Hostname.NormalizeHostname(c.base, r.hostname.value).Some?)
    && TunnelOk(Edited(c, t, r))
  }

  lemma RequestedIsWellFormed(c: Config, agent: Uuid, r: CreateRequest, port: nat)
    requires CreateOk(c, r) && PortOk(c, port)
    ensures WellFormed(c, Requested(c, agent, r, port))
  {
    hide HostOk;
    hide KindScheme;
    hide FullName;
    hide Hostname.NormalizeHostname;
    hide Hostname.Trim;
    TrimIsShorter(r.name);
    if r.kind == Web {
      NormalizedIsFull(c, AskedName(r));
    }
  }

  lemma WebIsWellFormed(c: Config, agent: Uuid, r: CreateRequest, port: nat)
    requires CreateOk(c, r) && r.kind == Web
    ensures WellFormed(c, Requested(c, agent, r, port))
  {
    hide HostOk;
    hide KindScheme;
    hide FullName;
    hide Hostname.NormalizeHostname;
    hide Hostname.Trim;
    TrimIsShorter(r.name);
    NormalizedIsFull(c, AskedName(r));
  }

  lemma EditedIsWellFormed(c: Config, t: Tunnel, r: UpdateRequest)
    requires WellFormed(c, t) && UpdateOk(c, t, r)
    ensures WellFormed(c, Edited(c, t, r)) && Edited(c, t, r).kind == t.kind && Edited(c, t, r).agent == t.agent
  {
    if r.hostname.Some? {
      NormalizedIsFull(c, r.hostname.value);
    }
    hide FullName;
    hide Hostname.NormalizeHostname;
    hide Hostname.Trim;
    hide HostOk;
  }

  lemma RowIsWellFormed(c: Config, rows: Rows, id: Uuid)
    requires TableOk(c, rows) && id in rows
    ensures WellFormed(c, rows[id])
  {
    hide WellFormed;
  }

  lemma EditedFields(c: Config, t: Tunnel, r: UpdateRequest)
    ensures var e := Edited(c, t, r);
      && e.agent == t.agent && e.kind == t.kind
      && e.name == (if r.name.Some? then Hostname.Trim(r.name.value) else t.name)
      && e.localHost == (if r.localHost.Some? then Hostname.Trim(r.localHost.value) else t.localHost)
      && e.localPort == (if r.localPort.Some? then r.localPort.value else t.localPort)
      && e.scheme == (if r.scheme.Some? then r.scheme.value else t.scheme)
      && e.remotePort == (if r.remotePort.Some? then r.remotePort else t.remotePort)
      && e.hostname == (if r.hostname.Some?
                    then Hostname.NormalizeHostname(c.base, r.hostname.value) else t.hostname)
      && e.access == (if r.access.Some? then r.access.value else t.access)
      && e.cidrs == (if r.cidrs.Some? then r.cidrs.value else t.cidrs)
      && e.enabled == (if r.enabled.Some? then r.enabled.value else t.enabled)
  {
    hide Hostname.Trim;
    hide Hostname.NormalizeHostname;
  }

  lemma ClashIsMutual(t: Tunnel, u: Tunnel)
    ensures Clash(t, u) <==> Clash(u, t)
  {
  }

  /** Writing a row that the database lets pass keeps the table well formed. */
  lemma WriteKeepsTableOk(c: Config, rows: Rows, id: Uuid, t: Tunnel)
    requires TableOk(c, rows) && WellFormed(c, t) && !Clashes(rows, id, t)
    ensures TableOk(c, rows[id := t])
  {
    hide WellFormed;
    var next := rows[id := t];
    forall i, j | i in next && j in next && i != j ensures !Clash(next[i], next[j]) {
      ClashIsMutual(next[i], next[j]);
    }
    hide Clash;
  }

  /** The tunnel has the endpoint that a create request with this port is for. */
  predicate Taken(t: Tunnel, r: CreateRequest, port: nat, base: string) {
    t.kind == r.kind &&
    if r.kind != Web then t.remotePort == Some(port)
    else
      var name := Hostname.NormalizeHostname(base, if r.hostname.Some? then r.hostname.value else r.name);
      t.hostname.Some? && name.Some? && Hostname.Lower(t.hostname.value) == Hostname.Lower(name.value)
  }

  lemma RequestedFields(c: Config, agent: Uuid, r: CreateRequest, port: nat)
    ensures var u := Requested(c, agent, r, port);
      && u.agent == agent && u.name == Hostname.Trim(r.name) && u.localHost == Hostname.Trim(r.localHost)
      && u.localPort == r.localPort && u.kind == r.kind && u.scheme == r.scheme
      && u.access == r.access && u.cidrs == r.cidrs && u.enabled == r.enabled
      && u.remotePort == (if r.kind == Web then None else Some(port))
      && u.hostname == (if r.kind == Web
                        then Hostname.NormalizeHostname(c.base, if r.hostname.Some? then r.hostname.value else r.name) else None)
  {
    hide Hostname.Trim;
    hide Hostname.NormalizeHostname;
  }

  lemma TakenIsClash(c: Config, rows: Rows, id: Uuid, r: CreateRequest, port: nat, u: Tunnel)
    requires id !in rows && u.kind == r.kind && u.remotePort == (if r.kind == Web then None else Some(port))
    requires u.hostname == (if r.kind == Web
                            then Hostname.NormalizeHostname(c.base, if r.hostname.Some? then r.hostname.value else r.name) else None)
    ensures Clashes(rows, id, u) <==> exists j :: j in rows && Taken(rows[j], r, port, c.base)
  {
    hide Hostname.NormalizeHostname;
    hide Hostname.Lower;
    forall j | j in rows ensures Clash(rows[j], u) <==> Taken(rows[j], r, port, c.base) {
    }
  }

  lemma NoneClashes(rows: Rows, id: Uuid, t: Tunnel)
    requires !Clashes(rows, id, t) && id !in rows
    ensures t.kind == Web && t.hostname.Some? ==> forall j :: j in rows && rows[j].kind == Web && rows[j].hostname.Some? ==>
              Hostname.Lower(rows[j].hostname.value) != Hostname.Lower(t.hostname.value)
    ensures t.kind != Web && t.remotePort.Some? ==> forall j :: j in rows && rows[j].kind == t.kind ==> rows[j].remotePort != t.remotePort
  {
    hide Hostname.Lower;
    forall j | j in rows ensures !Clash(rows[j], t) {
      assert j != id;
    }
  }

  lemma FreePortClashesNot(c: Config, rows: Rows, id: Uuid, t: Tunnel)
    requires t.kind != Web && t.remotePort.Some? && !Uses(rows, t.kind, t.remotePort.value)
    ensures !Clashes(rows, id, t)
  {
  }

  // ---------------------------------------------------------------- as code

  class Tunnels {
    const config: Config
    var rows: Rows
    var devices: set<Uuid>

    constructor (config: Config)
      ensures rows == map[] && devices == {} && this.config == config
    {
      this.config, rows, devices := config, map[], {};
    }

    /** The ports of the kind's tunnels, then the first of the range that is not among them. */
    method AllocatePort(kind: Kind) returns (r: Option<nat>)
      ensures LeastFree(config, rows, kind, r)
      ensures r.Some? ==> config.portStart <= r.value <= config.portEnd
      ensures r.Some? ==> forall id :: id in rows && rows[id].kind == kind ==> rows[id].remotePort != r
    {
      var used := set id | id in rows && rows[id].kind == kind && rows[id].remotePort.Some? :: rows[id].remotePort.value;
      assert forall q :: q in used <==> Uses(rows, kind, q);
      var port := config.portStart;
      while port <= config.portEnd
        invariant config.portStart <= port
        invariant forall q :: config.portStart <= q < port ==> Uses(rows, kind, q)
      {
        if port !in used {
          return Some(port);
        }
        port := port + 1;
      }
      r := None;
    }

    // The checks in the order of the source, against what they are to accept.

    method ValidateLocalHost(host: string, allowLan: bool) returns (ok: bool)
      ensures ok <==> HostOk(config, host, allowLan)
      ensures ok <==> var h := Hostname.Trim(host);
                && h != [] && ByteLength(h) <= 253 && (forall i :: 0 <= i < |h| ==> !Hostname.IsSpace(h[i]))
                && (config.loopback(h) || allowLan)
    {
      hide Hostname.IsSpace;
      hide Hostname.Trim;
      var h := Hostname.Trim(host);
      if h == [] || ByteLength(h) > 253 || exists i :: 0 <= i < |h| && Hostname.IsSpace(h[i]) { return false; }
      if !config.loopback(h) && !allowLan { return false; }
      ok := true;
    }

    method ValidateKindScheme(kind: Kind, scheme: Scheme) returns (ok: bool)
      ensures ok <==> KindScheme(kind, scheme)
      ensures ok <==> (kind == Tcp && scheme == TcpScheme) || (kind == Udp && scheme == UdpScheme)
                      || (kind == Web && (scheme == Http || scheme == Https))
    {
      match kind {
        case Tcp => ok := scheme.TcpScheme?;
        case Udp => ok := scheme.UdpScheme?;
        case Web => ok := scheme.Http? || scheme.Https?;
      }
    }

    method ValidateCreate(request: CreateRequest) returns (ok: bool)
      ensures ok <==> CreateOk(config, request)
      ensures ok <==>
        && 1 <= |Hostname.Trim(request.name)| && |request.name| <= 80
        && 1 <= request.localPort
        && HostOk(config, request.localHost, request.allowLan)
        && (request.remotePort.Some? ==> config.portStart <= request.remotePort.value <= config.portEnd)
        && KindScheme(request.kind, request.scheme)
        && (request.kind == Web ==> Hostname.NormalizeHostname(config.base, AskedName(request)).Some?)
        && (request.kind != Web ==> request.hostname == None)
        && (request.access == Allowlist ==> 1 <= |request.cidrs|)
    {
      hide HostOk;
      hide KindScheme;
      hide Hostname.Trim;
      hide Hostname.NormalizeHostname;
      if Hostname.Trim(request.name) == [] || |request.name| > 80 { return false; }
      if request.localPort == 0 { return false; }
      ok := ValidateLocalHost(request.localHost, request.allowLan);
      if !ok { return; }
      if request.remotePort.Some? && !(config.portStart <= request.remotePort.value <= config.portEnd) { return false; }
      ok := ValidateKindScheme(request.kind, request.scheme);
      if !ok { return; }
      if request.kind == Web {
        if Hostname.NormalizeHostname(config.base, AskedName(request)) == None { return false; }
      } else if request.hostname.Some? {
        return false;
      }
      if request.access == Allowlist && |request.cidrs| == 0 { return false; }
    }

    method ValidateTunnel(t: Tunnel) returns (ok: bool)
      ensures ok <==> TunnelOk(t)
      ensures ok <==>
        && 1 <= |t.name| <= 80
        && (t.access == Allowlist ==> 1 <= |t.cidrs|)
        && KindScheme(t.kind, t.scheme)
        && (t.kind == Web ==> t.hostname.Some?) && (t.kind != Web ==> t.remotePort.Some?)
    {
      hide KindScheme;
      if t.name == [] || |t.name| > 80 { return false; }
      if t.access == Allowlist && |t.cidrs| == 0 { return false; }
      ok := ValidateKindScheme(t.kind, t.scheme);
      if !ok { return; }
      ok := if t.kind == Web then t.hostname.Some? else t.remotePort.Some?;
    }

    /** The port of a new TCP or UDP tunnel. */
    method PickPort(request: CreateRequest) returns (port: Option<nat>)
      requires CreateOk(config, request)
      ensures if request.remotePort.Some? then port == request.remotePort else LeastFree(config, rows, request.kind, port)
      ensures port.Some? ==> PortOk(config, port.value)
    {
      if request.remotePort.Some? {
        port := request.remotePort;
      } else {
        port := AllocatePort(request.kind);
      }
    }

    /** On its own, a call fails for exactly these reasons: an invalid request; for an automatic port, a
        full pool; otherwise an endpoint that is taken; and else a device that is no longer there. What it stores
        is what was asked for, on the port asked for or the least free one. */
    method Create(id: Uuid, agent: Uuid, request: CreateRequest) returns (r: Result<Tunnel>)
      requires id !in rows && TableOk(config, rows)
      modifies this`rows
      ensures TableOk(config, rows)
      ensures r == Err(BadRequest) <==> !CreateOk(config, request)
      ensures r.Err? ==> rows == old(rows) && r.failure != NotFound
      ensures r.Ok? ==> agent in devices && (OwnersOk(old(rows), devices) ==> OwnersOk(rows, devices))
      ensures r == Err(Internal) ==> agent !in devices
      ensures r.Ok? ==> rows == old(rows)[id := r.value]
      ensures r.Ok? ==>
        && r.value.agent == agent && r.value.name == Hostname.Trim(request.name)
        && r.value.localHost == Hostname.Trim(request.localHost) && r.value.localPort == request.localPort
        && r.value.kind == request.kind && r.value.scheme == request.scheme
        && r.value.access == request.access && r.value.cidrs == request.cidrs && r.value.enabled == request.enabled
      ensures r.Ok? && request.kind == Web ==>
        && r.value.remotePort == None && r.value.hostname.Some?
        && r.value.hostname == Hostname.NormalizeHostname(config.base, if request.hostname.Some? then request.hostname.value else request.name)
      ensures r.Ok? && request.kind != Web ==>
        && r.value.hostname == None && r.value.remotePort.Some?
        && (request.remotePort.Some? ==> r.value.remotePort == request.remotePort)
        && (request.remotePort == None ==> LeastFree(config, old(rows), request.kind, r.value.remotePort))
      ensures r.Ok? && request.kind == Web ==> forall j :: j in old(rows) && old(rows)[j].kind == Web && old(rows)[j].hostname.Some? ==>
                Hostname.Lower(old(rows)[j].hostname.value) != Hostname.Lower(r.value.hostname.value)
      ensures r.Ok? && request.kind != Web ==> forall j :: j in old(rows) && old(rows)[j].kind == request.kind ==>
                old(rows)[j].remotePort != r.value.remotePort
      ensures r == Err(Conflict) ==>
        if request.kind != Web && request.remotePort == None then LeastFree(config, rows, request.kind, None)
        else exists j :: j in rows && rows[j].kind == request.kind
               && if request.kind != Web then request.remotePort.Some? && rows[j].remotePort == request.remotePort
                  else
                    var name := Hostname.NormalizeHostname(config.base, if request.hostname.Some? then request.hostname.value else request.name);
                    rows[j].hostname.Some? && name.Some? && Hostname.Lower(rows[j].hostname.value) == Hostname.Lower(name.value)
    {
      hide TableOk;
      hide WellFormed;
      hide LeastFree;
      hide Clashes;
      hide CreateOk;
      hide Requested;
      hide PortOk;
      hide HostOk;
      hide KindScheme;
      hide Hostname.Trim;
      hide Hostname.NormalizeHostname;
      var ok := ValidateCreate(request);
      if !ok { return Err(BadRequest); }
      var port := None;
      if request.kind != Web {
        port := PickPort(request);
        if port == None { return Err(Conflict); }
      }
      var tunnel := NewTunnel(agent, request, port);
      r := Insert(id, tunnel);
      if r.Ok? {
        WriteKeepsTableOk(config, old(rows), id, tunnel);
        NoneClashes(old(rows), id, tunnel);
      } else if request.kind != Web && request.remotePort == None {
        FreePortClashesNot(config, rows, id, tunnel);
      } else if r == Err(Conflict) {
        TakenIsClash(config, rows, id, request, Or(request.remotePort, 0), tunnel);
      }
    }

    /** The row, field by field. */
    method NewTunnel(agent: Uuid, request: CreateRequest, port: Option<nat>) returns (tunnel: Tunnel)
      requires CreateOk(config, request) && (port == None <==> request.kind == Web) && (port.Some? ==> PortOk(config, port.value))
      ensures WellFormed(config, tunnel) && tunnel == Requested(config, agent, request, Or(port, 0)) && tunnel.remotePort == port
      ensures tunnel.kind == Web ==> tunnel == Requested(config, agent, request, Or(request.remotePort, 0))
      ensures tunnel.agent == agent && tunnel.name == Hostname.Trim(request.name)
      ensures tunnel.localHost == Hostname.Trim(request.localHost) && tunnel.localPort == request.localPort
      ensures tunnel.kind == request.kind && tunnel.scheme == request.scheme
      ensures tunnel.access == request.access && tunnel.cidrs == request.cidrs && tunnel.enabled == request.enabled
      ensures tunnel.hostname == if request.kind != Web then None
                                 else Hostname.NormalizeHostname(config.base, if request.hostname.Some? then request.hostname.value else request.name)
    {
      hide Hostname.Trim;
      hide Hostname.NormalizeHostname;
      if request.kind == Web {
        WebIsWellFormed(config, agent, request, 0);
      } else {
        RequestedIsWellFormed(config, agent, request, port.value);
      }
      hide WellFormed;
      hide CreateOk;
      var hostname := None;
      if request.kind == Web {
        hostname := Hostname.NormalizeHostname(config.base, AskedName(request));
      }
      tunnel := Tunnel(agent, Hostname.Trim(request.name), Hostname.Trim(request.localHost), request.localPort,
                       request.kind, request.scheme, port, hostname, request.access, request.cidrs, request.enabled);
    }

    method Insert(id: Uuid, tunnel: Tunnel) returns (r: Result<Tunnel>)
      requires id !in rows
      modifies this`rows
      ensures r == if Clashes(old(rows), id, tunnel) then Err(Conflict) else if tunnel.agent !in devices then Err(Internal) else Ok(tunnel)
      ensures rows == if r.Ok? then old(rows)[id := tunnel] else old(rows)
    {
      if Clashes(rows, id, tunnel) { return Err(Conflict); }
      if tunnel.agent !in devices { return Err(Internal); }
      rows := rows[id := tunnel];
      r := Ok(tunnel);
    }

    /** The first changes of an update: name and local target. */
    method EditTarget(row: Tunnel, request: UpdateRequest) returns (r: Result<Tunnel>)
      ensures r == if (request.localHost.Some? ==> HostOk(config, request.localHost.value, request.allowLan))
                      && (request.localPort.Some? ==> request.localPort.value != 0)
                   then Ok(row.(name := if request.name.Some? then Hostname.Trim(request.name.value) else row.name,
                                localHost := if request.localHost.Some? then Hostname.Trim(request.localHost.value) else row.localHost,
                                localPort := Or(request.localPort, row.localPort)))
                   else Err(BadRequest)
    {
      hide HostOk;
      hide Hostname.Trim;
      var tunnel := row;
      if request.name.Some? {
        tunnel := tunnel.(name := Hostname.Trim(request.name.value));
      }
      if request.localHost.Some? {
        var ok := ValidateLocalHost(request.localHost.value, request.allowLan);
        if !ok { return Err(BadRequest); }
        tunnel := tunnel.(localHost := Hostname.Trim(request.localHost.value));
      }
      if request.localPort.Some? {
        if request.localPort.value == 0 { return Err(BadRequest); }
        tunnel := tunnel.(localPort := request.localPort.value);
      }
      r := Ok(tunnel);
    }

    /** The next ones: public endpoint, kind and scheme. */
    method EditEndpoint(row: Tunnel, request: UpdateRequest) returns (r: Result<Tunnel>)
      ensures r == if (request.remotePort.Some? ==> row.kind != Web && PortOk(config, request.remotePort.value))
                      && (request.kind.Some? ==> request.kind.value == row.kind)
                      && (request.hostname.Some? ==>
                            row.kind == Web && Hostname.NormalizeHostname(config.base, request.hostname.value).Some?)
                   then Ok(row.(remotePort := if request.remotePort.Some? then request.remotePort else row.remotePort,
                                scheme := Or(request.scheme, row.scheme),
                                hostname := if request.hostname.Some?
                                            then Hostname.NormalizeHostname(config.base, request.hostname.value) else row.hostname))
                   else Err(BadRequest)
    {
      hide Hostname.NormalizeHostname;
      var tunnel := row;
      if request.remotePort.Some? {
        if tunnel.kind == Web { return Err(BadRequest); }
        if !(config.portStart <= request.remotePort.value <= config.portEnd) { return Err(BadRequest); }
        tunnel := tunnel.(remotePort := request.remotePort);
      }
      if request.kind.Some? && request.kind.value != tunnel.kind { return Err(BadRequest); }
      if request.scheme.Some? {
        tunnel := tunnel.(scheme := request.scheme.value);
      }
      if request.hostname.Some? {
        if tunnel.kind != Web { return Err(BadRequest); }
        var name := Hostname.NormalizeHostname(config.base, request.hostname.value);
        if name == None { return Err(BadRequest); }
        tunnel := tunnel.(hostname := name);
      }
      r := Ok(tunnel);
    }

    /** The requested changes, made to a copy of the row field by field. */
    method Edit(row: Tunnel, request: UpdateRequest) returns (r: Result<Tunnel>)
      ensures r == if UpdateOk(config, row, request) then Ok(Edited(config, row, request)) else Err(BadRequest)
    {
      hide KindScheme;
      hide PortOk;
      hide HostOk;
      hide TunnelOk;
      hide Hostname.Trim;
      hide Hostname.NormalizeHostname;
      var target := EditTarget(row, request);
      if target.Err? { return target; }
      var endpoint := EditEndpoint(target.value, request);
      if endpoint.Err? { return endpoint; }
      var tunnel := endpoint.value;
      if request.access.Some? {
        tunnel := tunnel.(access := request.access.value);
      }
      if request.cidrs.Some? {
        tunnel := tunnel.(cidrs := request.cidrs.value);
      }
      if request.enabled.Some? {
        tunnel := tunnel.(enabled := request.enabled.value);
      }
      assert tunnel == Edited(config, row, request);
      var ok := ValidateTunnel(tunnel);
      if !ok { return Err(BadRequest); }
      r := Ok(tunnel);
    }

    /** On its own, an update of a stored tunnel by its owner or an administrator stores exactly the edited
        row, or nothing. */
    method Update(id: Uuid, owner: Option<Uuid>, request: UpdateRequest) returns (r: Result<Tunnel>)
      requires TableOk(config, rows)
      modifies this`rows
      ensures TableOk(config, rows)
      ensures r == Err(NotFound) <==> id !in old(rows) || (owner.Some? && owner.value != old(rows)[id].agent)
      ensures r == Err(BadRequest) <==> r != Err(NotFound) && !UpdateOk(config, old(rows)[id], request)
      ensures r == Err(Conflict) <==> r != Err(NotFound) && r != Err(BadRequest) && Clashes(old(rows), id, Edited(config, old(rows)[id], request))
      ensures r.Ok? ==> rows == old(rows)[id := Edited(config, old(rows)[id], request)] && r.value == rows[id]
      ensures r.Ok? ==> var row := old(rows)[id];
        && rows[id].agent == row.agent && rows[id].kind == row.kind
        && rows[id].name == (if request.name.Some? then Hostname.Trim(request.name.value) else row.name)
        && rows[id].localHost == (if request.localHost.Some? then Hostname.Trim(request.localHost.value) else row.localHost)
        && rows[id].localPort == (if request.localPort.Some? then request.localPort.value else row.localPort)
        && rows[id].scheme == (if request.scheme.Some? then request.scheme.value else row.scheme)
        && rows[id].remotePort == (if request.remotePort.Some? then request.remotePort else row.remotePort)
        && rows[id].hostname == (if request.hostname.Some?
                                then Hostname.NormalizeHostname(config.base, request.hostname.value) else row.hostname)
        && rows[id].access == (if request.access.Some? then request.access.value else row.access)
        && rows[id].cidrs == (if request.cidrs.Some? then request.cidrs.value else row.cidrs)
        && rows[id].enabled == (if request.enabled.Some? then request.enabled.value else row.enabled)
      ensures r.Err? ==> rows == old(rows)
    {
      hide TableOk;
      hide Clashes;
      if id !in rows { return Err(NotFound); }
      var row := rows[id];
      if owner.Some? && owner.value != row.agent { return Err(NotFound); }
      var edited := Edit(row, request);
      if edited.Err? { return edited; }
      RowIsWellFormed(config, rows, id);
      EditedIsWellFormed(config, row, request);
      hide WellFormed;
      hide UpdateOk;
      EditedFields(config, row, request);
      hide Edited;
      if Clashes(rows, id, edited.value) { return Err(Conflict); }
      WriteKeepsTableOk(config, rows, id, edited.value);
      rows := rows[id := edited.value];
      r := edited;
    }

    method Delete(id: Uuid, owner: Option<Uuid>) returns (r: Result<()>)
      requires TableOk(config, rows)
      modifies this`rows
      ensures TableOk(config, rows)
      ensures r == if id in old(rows) && (owner.Some? ==> owner.value == old(rows)[id].agent) then Ok(()) else Err(NotFound)
      ensures rows == if r.Ok? then old(rows) - {id} else old(rows)
    {
      if id !in rows { return Err(NotFound); }
      if owner.Some? && owner.value != rows[id].agent { return Err(NotFound); }
      rows := rows - {id};
      r := Ok(());
    }
  }

  // ---------------------------------------------------------------- interleaved calls

  /** A call between its read and its write: a create about to insert, an update about to write the row it
      has edited. `used` is every identifier ever given out to a tunnel, `devices` the devices there are. */
  datatype Pending = Creating(id: Uuid, tunnel: Tunnel) | Updating(id: Uuid, tunnel: Tunnel)

  datatype Table = Table(rows: Rows, pending: map<nat, Pending>, used: set<Uuid>, devices: set<Uuid>)

  datatype Step =
    | BeginCreate(call: nat, id: Uuid, agent: Uuid, request: CreateRequest, port: nat)
    | BeginUpdate(call: nat, id: Uuid, changes: UpdateRequest)
    | Write(call: nat)
    | Remove(id: Uuid)
    | AddDevice(agent: Uuid)
    | RemoveAll(agent: Uuid)  // a device is deleted for good, together with its tunnels

  predicate Possible(c: Config, s: Table, step: Step) {
    match step
    case BeginCreate(call, id, agent, request, port) =>
      && call !in s.pending && id !in s.used && CreateOk(c, request)
      && (request.kind != Web ==>
            if request.remotePort.Some? then port == request.remotePort.value
            else LeastFree(c, s.rows, request.kind, Some(port)))
    case BeginUpdate(call, id, request) => call !in s.pending && id in s.rows && UpdateOk(c, s.rows[id], request)
    case Write(call) => call in s.pending
    case Remove(id) => true
    case AddDevice(_) => true
    case RemoveAll(_) => true
  }

  /** What the UPDATE statement writes: every column but the kind and the agent. */
  function Overwritten(row: Tunnel, t: Tunnel): Tunnel {
    t.(kind := row.kind, agent := row.agent)
  }

  function Next(c: Config, s: Table, step: Step): Table
    requires Possible(c, s, step)
  {
    match step
    case BeginCreate(call, id, agent, request, port) =>
      s.(pending := s.pending[call := Creating(id, Requested(c, agent, request, port))], used := s.used + {id})
    case BeginUpdate(call, id, request) => s.(pending := s.pending[call := Updating(id, Edited(c, s.rows[id], request))])
    case Write(call) => s.(rows := Written(s.rows, s.devices, s.pending[call]), pending := s.pending - {call})
    case Remove(id) => s.(rows := s.rows - {id})
    case AddDevice(agent) => s.(devices := s.devices + {agent})
    case RemoveAll(agent) =>
      s.(rows := map id | id in s.rows && s.rows[id].agent != agent :: s.rows[id], devices := s.devices - {agent})
  }

  /** The rows after an INSERT or UPDATE; a clash, a vanished device or a vanished row leaves them alone. */
  function Written(rows: Rows, devices: set<Uuid>, p: Pending): Rows {
    match p
    case Creating(id, t) => if Clashes(rows, id, t) || t.agent !in devices then rows else rows[id := t]
    case Updating(id, t) =>
      if id !in rows || Clashes(rows, id, Overwritten(rows[id], t)) then rows else rows[id := Overwritten(rows[id], t)]
  }

  /** What the caller is told. */
  function Told(rows: Rows, devices: set<Uuid>, p: Pending): Result<Tunnel> {
    match p
    case Creating(id, t) => if Clashes(rows, id, t) then Err(Conflict) else if t.agent !in devices then Err(Internal) else Ok(t)
    case Updating(id, t) => if id in rows && Clashes(rows, id, Overwritten(rows[id], t)) then Err(Conflict) else Ok(t)
  }

  ghost predicate PendingOk(c: Config, s: Table, p: Pending) {
    && WellFormed(c, p.tunnel) && p.id in s.used
    && match p
       case Creating(id, _) => id !in s.rows
       case Updating(id, t) => id in s.rows ==> t.kind == s.rows[id].kind && t.agent == s.rows[id].agent
  }

  /** Identifiers are fresh, so no two pending creates share one and none is pending for update yet. */
  ghost predicate CallsOk(c: Config, s: Table) {
    && s.rows.Keys <= s.used
    && (forall k :: k in s.pending ==> PendingOk(c, s, s.pending[k]))
    && (forall k, l :: k in s.pending && l in s.pending && k != l && s.pending[k].Creating? ==> s.pending[l].id != s.pending[k].id)
  }

  ghost predicate StateOk(c: Config, s: Table) {
    TableOk(c, s.rows) && OwnersOk(s.rows, s.devices) && CallsOk(c, s)
  }

  lemma WriteKeepsRows(c: Config, s: Table, call: nat)
    requires StateOk(c, s) && call in s.pending
    ensures TableOk(c, Written(s.rows, s.devices, s.pending[call])) && OwnersOk(Written(s.rows, s.devices, s.pending[call]), s.devices)
    ensures forall id :: id in s.rows ==>
              var t := Written(s.rows, s.devices, s.pending[call]); id in t && t[id].kind == s.rows[id].kind && t[id].agent == s.rows[id].agent
    ensures Written(s.rows, s.devices, s.pending[call]).Keys <= s.rows.Keys + {s.pending[call].id}
    ensures s.pending[call].Updating? ==> Written(s.rows, s.devices, s.pending[call]).Keys == s.rows.Keys
  {
    hide WellFormed;
    hide TableOk;
    hide Clashes;
    var p := s.pending[call];
    assert PendingOk(c, s, p);
    match p {
      case Creating(id, t) =>
        if !Clashes(s.rows, id, t) {
          WriteKeepsTableOk(c, s.rows, id, t);
        }
      case Updating(id, t) =>
        if id in s.rows {
          assert Overwritten(s.rows[id], t) == t;
          if !Clashes(s.rows, id, t) {
            WriteKeepsTableOk(c, s.rows, id, t);
          }
        }
    }
  }

  lemma FewerRowsOk(c: Config, rows: Rows, fewer: Rows)
    requires TableOk(c, rows) && forall id :: id in fewer ==> id in rows && fewer[id] == rows[id]
    ensures TableOk(c, fewer)
  {
    hide WellFormed;
    hide Clash;
  }

  lemma AddingPending(c: Config, s: Table, call: nat, p: Pending, used: set<Uuid>)
    requires StateOk(c, s) && call !in s.pending && WellFormed(c, p.tunnel)
    requires match p
             case Creating(id, _) => id !in s.used && used == s.used + {id}
             case Updating(id, t) => used == s.used && id in s.rows && t.kind == s.rows[id].kind && t.agent == s.rows[id].agent
    ensures StateOk(c, Table(s.rows, s.pending[call := p], used, s.devices))
  {
    hide WellFormed;
    hide TableOk;
    var t := Table(s.rows, s.pending[call := p], used, s.devices);
    forall k | k in t.pending ensures PendingOk(c, t, t.pending[k]) {
      assert k != call ==> PendingOk(c, s, s.pending[k]);
    }
  }

  lemma BeginKeepsOk(c: Config, s: Table, step: Step)
    requires StateOk(c, s) && Possible(c, s, step) && (step.BeginCreate? || step.BeginUpdate?)
    ensures StateOk(c, Next(c, s, step))
  {
    if step.BeginCreate? {
      if step.request.kind == Web {
        WebIsWellFormed(c, step.agent, step.request, step.port);
      } else {
        RequestedIsWellFormed(c, step.agent, step.request, step.port);
      }
      hide StateOk;
      hide CreateOk;
      hide WellFormed;
      hide Requested;
      AddingPending(c, s, step.call, Creating(step.id, Requested(c, step.agent, step.request, step.port)), s.used + {step.id});
    } else {
      assert WellFormed(c, s.rows[step.id]) by {
        hide WellFormed;
        hide UpdateOk;
        hide CallsOk;
      }
      hide StateOk;
      EditedIsWellFormed(c, s.rows[step.id], step.changes);
      hide UpdateOk;
      hide WellFormed;
      hide Edited;
      AddingPending(c, s, step.call, Updating(step.id, Edited(c, s.rows[step.id], step.changes)), s.used);
    }
  }

  lemma WriteKeepsOk(c: Config, s: Table, call: nat)
    requires StateOk(c, s) && Possible(c, s, Write(call))
    ensures StateOk(c, Next(c, s, Write(call)))
  {
    WriteKeepsRows(c, s, call);
    var t := Next(c, s, Write(call));
    hide WellFormed;
    hide TableOk;
    hide Clashes;
    hide Written;
    assert PendingOk(c, s, s.pending[call]);
    forall k | k in t.pending ensures PendingOk(c, t, t.pending[k]) {
      assert PendingOk(c, s, s.pending[k]);
    }
  }

  lemma RemoveKeepsOk(c: Config, s: Table, step: Step)
    requires StateOk(c, s) && (step.Remove? || step.AddDevice? || step.RemoveAll?)
    ensures StateOk(c, Next(c, s, step))
  {
    FewerRowsOk(c, s.rows, Next(c, s, step).rows);
    hide TableOk;
    hide WellFormed;
  }

  lemma StepKeepsStateOk(c: Config, s: Table, step: Step)
    requires StateOk(c, s) && Possible(c, s, step)
    ensures StateOk(c, Next(c, s, step))
  {
    hide StateOk;
    match step
    case BeginCreate(_, _, _, _, _) => BeginKeepsOk(c, s, step);
    case BeginUpdate(_, _, _) => BeginKeepsOk(c, s, step);
    case Write(call) => WriteKeepsOk(c, s, call);
    case Remove(_) => RemoveKeepsOk(c, s, step);
    case AddDevice(_) => RemoveKeepsOk(c, s, step);
    case RemoveAll(_) => RemoveKeepsOk(c, s, step);
  }

  ghost predicate Run(c: Config, s: Table, steps: seq<Step>, t: Table)
    decreases |steps|
  {
    if steps == [] then s == t
    else Possible(c, s, steps[0]) && Run(c, Next(c, s, steps[0]), steps[1..], t)
  }

  const EMPTY := Table(map[], map[], {}, {})

  lemma {:induction false} RunKeepsStateOk(c: Config, s: Table, steps: seq<Step>, t: Table)
    requires StateOk(c, s) && Run(c, s, steps, t)
    ensures StateOk(c, t)
    decreases |steps|
  {
    hide StateOk;
    hide Possible;
    hide Next;
    if steps != [] {
      StepKeepsStateOk(c, s, steps[0]);
      RunKeepsStateOk(c, Next(c, s, steps[0]), steps[1..], t);
    }
  }

  /** Whatever creates, updates and deletes interleave, reading and writing at different times: every stored
      tunnel is well formed and belongs to a device, and no two of one kind share a port or a host name. */
  lemma {:induction false} TablesStayWellFormed(c: Config, steps: seq<Step>, t: Table)
    requires Run(c, EMPTY, steps, t)
    ensures OwnersOk(t.rows, t.devices)
    ensures forall id :: id in t.rows ==>
              var u := t.rows[id];
              && 1 <= |u.name| <= 80 && 1 <= u.localPort && (u.access == Allowlist ==> 1 <= |u.cidrs|)
              && (u.kind == Tcp ==> u.scheme == TcpScheme) && (u.kind == Udp ==> u.scheme == UdpScheme)
              && (u.kind == Web ==> u.scheme == Http || u.scheme == Https)
              && (u.kind != Web ==> u.hostname == None && u.remotePort.Some? && c.portStart <= u.remotePort.value <= c.portEnd)
              && (u.kind == Web ==> u.remotePort == None && exists stem :: Hostname.Label(stem) && u.hostname == Some(stem + "." + c.base))
    ensures forall i, j :: i in t.rows && j in t.rows && i != j && t.rows[i].kind == t.rows[j].kind != Web ==>
              t.rows[i].remotePort != t.rows[j].remotePort
    ensures forall i, j :: i in t.rows && j in t.rows && i != j && t.rows[i].kind == t.rows[j].kind == Web ==>
              t.rows[i].hostname != t.rows[j].hostname
  {
    RunKeepsStateOk(c, EMPTY, steps, t);
    assert TableOk(c, t.rows);
    forall id | id in t.rows && t.rows[id].kind == Web
      ensures exists stem :: Hostname.Label(stem) && t.rows[id].hostname == Some(stem + "." + c.base)
    {
      assert WellFormed(c, t.rows[id]);
    }
    hide Hostname.Label;
    hide CallsOk;
  }

  /** The tunnel is neither stored nor about to be created. */
  ghost predicate Forgotten(s: Table, id: Uuid) {
    id !in s.rows && forall k :: k in s.pending && s.pending[k].Creating? ==> s.pending[k].id != id
  }

  lemma StoredIsNotCreating(c: Config, s: Table, id: Uuid)
    requires StateOk(c, s) && id in s.rows
    ensures forall k :: k in s.pending && s.pending[k].Creating? ==> s.pending[k].id != id
  {
    hide TableOk;
    hide WellFormed;
    forall k | k in s.pending && s.pending[k].Creating? ensures s.pending[k].id != id {
      assert PendingOk(c, s, s.pending[k]);
    }
  }

  /** From `s` to `m`, tunnel `id` keeps its kind and owner or is gone for good. */
  ghost predicate KindKept(s: Table, m: Table, id: Uuid) {
    && id in m.used
    && (id in s.rows && id in m.rows ==> m.rows[id].kind == s.rows[id].kind && m.rows[id].agent == s.rows[id].agent)
    && (id in s.rows && id !in m.rows ==> Forgotten(m, id))
    && (Forgotten(s, id) ==> Forgotten(m, id))
  }

  lemma WriteKeepsKind(c: Config, s: Table, call: nat, id: Uuid)
    requires StateOk(c, s) && Possible(c, s, Write(call)) && id in s.used
    ensures KindKept(s, Next(c, s, Write(call)), id)
  {
    WriteKeepsRows(c, s, call);
    hide StateOk;
    hide Written;
  }

  lemma BeginKeepsKind(c: Config, s: Table, step: Step, id: Uuid)
    requires Possible(c, s, step) && id in s.used && (step.BeginCreate? || step.BeginUpdate?)
    ensures KindKept(s, Next(c, s, step), id)
  {
    hide CreateOk;
    hide UpdateOk;
    hide Uses;
    hide Requested;
    hide Edited;
  }

  lemma RemoveKeepsKind(c: Config, s: Table, step: Step, id: Uuid)
    requires StateOk(c, s) && id in s.used && (step.Remove? || step.AddDevice? || step.RemoveAll?)
    ensures KindKept(s, Next(c, s, step), id)
  {
    if id in s.rows {
      StoredIsNotCreating(c, s, id);
    }
    hide StateOk;
  }

  lemma StepKeepsKind(c: Config, s: Table, step: Step, id: Uuid)
    requires StateOk(c, s) && Possible(c, s, step) && id in s.used
    ensures KindKept(s, Next(c, s, step), id)
  {
    hide StateOk;
    hide KindKept;
    match step
    case BeginCreate(_, _, _, _, _) => BeginKeepsKind(c, s, step, id);
    case BeginUpdate(_, _, _) => BeginKeepsKind(c, s, step, id);
    case Write(call) => WriteKeepsKind(c, s, call, id);
    case Remove(_) => RemoveKeepsKind(c, s, step, id);
    case AddDevice(_) => RemoveKeepsKind(c, s, step, id);
    case RemoveAll(_) => RemoveKeepsKind(c, s, step, id);
  }

  /** A tunnel keeps its kind and its owner as long as it exists, and a deleted one never comes back. */
  lemma {:induction false} KindIsImmutable(c: Config, s: Table, steps: seq<Step>, t: Table, id: Uuid)
    requires StateOk(c, s) && Run(c, s, steps, t) && id in s.used
    ensures id in s.rows && id in t.rows ==> t.rows[id].kind == s.rows[id].kind && t.rows[id].agent == s.rows[id].agent
    ensures Forgotten(s, id) ==> Forgotten(t, id)
    decreases |steps|
  {
    if steps != [] {
      var m := Next(c, s, steps[0]);
      StepKeepsKind(c, s, steps[0], id);
      StepKeepsStateOk(c, s, steps[0]);
      hide StateOk;
      hide Next;
      hide Possible;
      KindIsImmutable(c, m, steps[1..], t, id);
    }
  }

  lemma RowAfter(c: Config, s: Table, step: Step, id: Uuid)
    requires StateOk(c, s) && Possible(c, s, step) && id in s.rows
    ensures id in Next(c, s, step).rows <==> step != Remove(id) && step != RemoveAll(s.rows[id].agent)
  {
    if step.Write? {
      WriteKeepsRows(c, s, step.call);
      hide Written;
    }
    hide StateOk;
    hide CreateOk;
    hide UpdateOk;
    hide Requested;
    hide Edited;
    hide LeastFree;
  }

  /** How long a tunnel lasts, exactly: over any run it stays until it is deleted itself or its device is, and
      then it never comes back. */
  lemma {:induction false} TunnelLastsUntil(c: Config, s: Table, steps: seq<Step>, t: Table, id: Uuid)
    requires StateOk(c, s) && Run(c, s, steps, t) && id in s.rows
    ensures id in t.rows <==> forall step :: step in steps ==> step != Remove(id) && step != RemoveAll(s.rows[id].agent)
    decreases |steps|
  {
    if steps != [] {
      var m := Next(c, s, steps[0]);
      RowAfter(c, s, steps[0], id);
      StepKeepsKind(c, s, steps[0], id);
      StepKeepsStateOk(c, s, steps[0]);
      InUse(c, s, id);
      hide StateOk;
      hide Next;
      hide Possible;
      if id in m.rows {
        TunnelLastsUntil(c, m, steps[1..], t, id);
        assert forall step :: step in steps <==> step == steps[0] || step in steps[1..];
      } else {
        KindIsImmutable(c, m, steps[1..], t, id);
        assert steps[0] in steps;
      }
    }
  }

  lemma InUse(c: Config, s: Table, id: Uuid)
    requires StateOk(c, s) && id in s.rows
    ensures id in s.used
  {
    hide TableOk;
  }

  /** What the caller is told, exactly: a conflict when the endpoint is taken, an internal error when the
      device has been deleted meanwhile, and then nothing is stored; a create that succeeds is stored; an
      update that succeeds is stored if and only if its row was still there, and otherwise nothing is. */
  lemma WhatSuccessMeans(c: Config, s: Table, call: nat)
    requires StateOk(c, s) && Possible(c, s, Write(call))
    ensures var p, rows := s.pending[call], Next(c, s, Write(call)).rows;
      && (Told(s.rows, s.devices, p).Err? ==> rows == s.rows)
      && (Told(s.rows, s.devices, p) == Err(Conflict) <==> Clashes(s.rows, p.id, p.tunnel) && (p.Creating? || p.id in s.rows))
      && (Told(s.rows, s.devices, p) == Err(Internal) <==>
            p.Creating? && p.tunnel.agent !in s.devices && !Clashes(s.rows, p.id, p.tunnel))
      && (Told(s.rows, s.devices, p).Ok? ==>
            if p.Creating? || p.id in s.rows then rows == s.rows[p.id := p.tunnel] else rows == s.rows && p.id !in rows)
  {
    var p := s.pending[call];
    assert PendingOk(c, s, p);
    if p.Updating? && p.id in s.rows {
      assert Overwritten(s.rows[p.id], p.tunnel) == p.tunnel;
    }
    hide Clashes;
    hide WellFormed;
    hide TableOk;
  }

  /** What another call is about to write, only its own write takes away. */
  lemma {:induction false} PendingStays(c: Config, s: Table, steps: seq<Step>, t: Table, call: nat)
    requires Run(c, s, steps, t) && call in s.pending && Write(call) !in steps
    ensures call in t.pending && t.pending[call] == s.pending[call]
    decreases |steps|
  {
    if steps != [] {
      PendingStep(c, s, steps[0], call);
      hide Next;
      hide Possible;
      assert steps[0] in steps;
      PendingStays(c, Next(c, s, steps[0]), steps[1..], t, call);
    }
  }

  lemma PendingStep(c: Config, s: Table, step: Step, call: nat)
    requires Possible(c, s, step) && call in s.pending && step != Write(call)
    ensures call in Next(c, s, step).pending && Next(c, s, step).pending[call] == s.pending[call]
  {
    hide CreateOk;
    hide UpdateOk;
    hide Requested;
    hide Edited;
    hide Written;
    hide LeastFree;
  }

  /** A create that is written later, whatever other calls do in between, stores what was asked for, field by
      field, or nothing: it is stored exactly if its device is still there and no tunnel has its endpoint. */
  lemma {:induction false} CreatesAreStored(c: Config, s: Table, begin: Step, steps: seq<Step>, t: Table)
    requires StateOk(c, s) && begin.BeginCreate? && Possible(c, s, begin)
    requires Run(c, Next(c, s, begin), steps, t) && Write(begin.call) !in steps
    ensures Possible(c, t, Write(begin.call))
    ensures var r, id, rows := begin.request, begin.id, Next(c, t, Write(begin.call)).rows;
      && id !in t.rows && (id !in rows ==> rows == t.rows)
      && (id in rows ==>
            var u := rows[id];
            && rows == t.rows[id := u]
            && u.agent == begin.agent && u.name == Hostname.Trim(r.name) && u.localHost == Hostname.Trim(r.localHost)
            && u.localPort == r.localPort && u.kind == r.kind && u.scheme == r.scheme
            && u.access == r.access && u.cidrs == r.cidrs && u.enabled == r.enabled
            && u.remotePort == (if r.kind == Web then None else Some(begin.port))
            && u.hostname == (if r.kind == Web
                              then Hostname.NormalizeHostname(c.base, if r.hostname.Some? then r.hostname.value else r.name) else None))
      && (r.kind != Web ==>
            (id in rows <==> begin.agent in t.devices
                             && forall j :: j in t.rows && t.rows[j].kind == r.kind ==> t.rows[j].remotePort != Some(begin.port)))
    ensures begin.request.kind == Web ==>
      var r := begin.request;
      var name := Hostname.NormalizeHostname(c.base, if r.hostname.Some? then r.hostname.value else r.name);
      && name.Some?
      && (begin.id in Next(c, t, Write(begin.call)).rows <==>
            begin.agent in t.devices && forall j :: j in t.rows && t.rows[j].kind == Web && t.rows[j].hostname.Some? ==>
              Hostname.Lower(t.rows[j].hostname.value) != Hostname.Lower(name.value))
  {
    var m := Next(c, s, begin);
    BeginIs(c, s, begin);
    StepKeepsStateOk(c, s, begin);
    hide Possible;
    hide Next;
    hide StateOk;
    PendingStays(c, m, steps, t, begin.call);
    RunKeepsStateOk(c, m, steps, t);
    hide Run;
    WriteIs(c, t, begin.call);
    CreateWrites(c, t, begin.call, begin.id, begin.agent, begin.request, begin.port);
    RequestedFields(c, begin.agent, begin.request, begin.port);
    hide Requested;
    hide Hostname.NormalizeHostname;
    hide Hostname.Trim;
  }

  /** An update that is written later stores the row it has read with the changes that were asked for, field by
      field, over whatever others have written to that row meanwhile - if the row is still there and no other
      tunnel has its endpoint. */
  lemma {:induction false} UpdatesAreStored(c: Config, s: Table, begin: Step, steps: seq<Step>, t: Table)
    requires StateOk(c, s) && begin.BeginUpdate? && Possible(c, s, begin)
    requires Run(c, Next(c, s, begin), steps, t) && Write(begin.call) !in steps
    ensures Possible(c, t, Write(begin.call))
    ensures var r, id, rows := begin.changes, begin.id, Next(c, t, Write(begin.call)).rows;
      && (id !in t.rows ==> rows == t.rows)
      && (id in t.rows ==>
            var was, now := s.rows[id], t.rows[id].(
              name := if r.name.Some? then Hostname.Trim(r.name.value) else s.rows[id].name,
              localHost := if r.localHost.Some? then Hostname.Trim(r.localHost.value) else s.rows[id].localHost,
              localPort := if r.localPort.Some? then r.localPort.value else s.rows[id].localPort,
              scheme := if r.scheme.Some? then r.scheme.value else s.rows[id].scheme,
              remotePort := if r.remotePort.Some? then r.remotePort else s.rows[id].remotePort,
              hostname := if r.hostname.Some? then Hostname.NormalizeHostname(c.base, r.hostname.value) else s.rows[id].hostname,
              access := if r.access.Some? then r.access.value else s.rows[id].access,
              cidrs := if r.cidrs.Some? then r.cidrs.value else s.rows[id].cidrs,
              enabled := if r.enabled.Some? then r.enabled.value else s.rows[id].enabled);
            && now.kind == was.kind && now.agent == was.agent
            && rows == if Clashes(t.rows, id, now) then t.rows else t.rows[id := now])
  {
    var m := Next(c, s, begin);
    UpdateBegins(c, s, begin);
    StepKeepsStateOk(c, s, begin);
    hide Possible;
    hide Next;
    hide StateOk;
    PendingStays(c, m, steps, t, begin.call);
    RunKeepsStateOk(c, m, steps, t);
    hide Run;
    WriteIs(c, t, begin.call);
    UpdateWrites(c, t, begin.call, begin.id, s.rows[begin.id], begin.changes);
    EditedFields(c, s.rows[begin.id], begin.changes);
    hide Edited;
    hide Clashes;
    hide Hostname.NormalizeHostname;
    hide Hostname.Trim;
  }

  lemma UpdateBegins(c: Config, s: Table, begin: Step)
    requires begin.BeginUpdate? && Possible(c, s, begin)
    ensures begin.id in s.rows
    ensures var m := Next(c, s, begin);
      begin.call in m.pending && m.pending[begin.call] == Updating(begin.id, Edited(c, s.rows[begin.id], begin.changes))
  {
    hide Edited;
    hide UpdateOk;
  }

  lemma UpdateWrites(c: Config, t: Table, call: nat, id: Uuid, was: Tunnel, r: UpdateRequest)
    requires StateOk(c, t) && call in t.pending && t.pending[call] == Updating(id, Edited(c, was, r))
    ensures id in t.rows ==> t.rows[id].kind == was.kind && t.rows[id].agent == was.agent
    ensures Written(t.rows, t.devices, t.pending[call])
         == if id !in t.rows || Clashes(t.rows, id, Edited(c, was, r)) then t.rows else t.rows[id := Edited(c, was, r)]
  {
    hide Clashes;
    hide WellFormed;
    hide TableOk;
    hide Hostname.NormalizeHostname;
    hide Hostname.Trim;
    assert PendingOk(c, t, t.pending[call]);
    EditedFields(c, was, r);
    hide Edited;
    if id in t.rows {
      assert Overwritten(t.rows[id], Edited(c, was, r)) == Edited(c, was, r);
    }
  }

  lemma BeginIs(c: Config, s: Table, begin: Step)
    requires begin.BeginCreate? && Possible(c, s, begin)
    ensures begin.request.kind == Web ==> Hostname.NormalizeHostname(c.base, AskedName(begin.request)).Some?
    ensures var m := Next(c, s, begin);
      begin.call in m.pending && m.pending[begin.call] == Creating(begin.id, Requested(c, begin.agent, begin.request, begin.port))
  {
    hide Requested;
    hide HostOk;
    hide Hostname.NormalizeHostname;
    hide Hostname.Trim;
    hide LeastFree;
  }

  lemma CreateWrites(c: Config, t: Table, call: nat, id: Uuid, agent: Uuid, r: CreateRequest, port: nat)
    requires StateOk(c, t) && call in t.pending && t.pending[call] == Creating(id, Requested(c, agent, r, port))
    ensures id !in t.rows
    ensures var rows := Written(t.rows, t.devices, t.pending[call]);
      if agent in t.devices && !(exists j :: j in t.rows && Taken(t.rows[j], r, port, c.base))
      then rows == t.rows[id := Requested(c, agent, r, port)] else rows == t.rows
  {
    hide StateOk;
    hide Requested;
    hide Clashes;
    hide Taken;
    hide Hostname.NormalizeHostname;
    hide Hostname.Trim;
    PendingCreate(c, t, call);
    RequestedFields(c, agent, r, port);
    TakenIsClash(c, t.rows, id, r, port, Requested(c, agent, r, port));
  }

  lemma WriteIs(c: Config, t: Table, call: nat)
    requires call in t.pending
    ensures Possible(c, t, Write(call)) && Next(c, t, Write(call)).rows == Written(t.rows, t.devices, t.pending[call])
  {
  }

  lemma PendingCreate(c: Config, t: Table, call: nat)
    requires StateOk(c, t) && call in t.pending && t.pending[call].Creating?
    ensures t.pending[call].id !in t.rows
  {
    assert PendingOk(c, t, t.pending[call]);
  }

  // ---------------------------------------------------------------- routing of stored names

  /** The names that request routing and the TLS ask look at. */
  function WebNames(rows: Rows): Hostname.Rows {
    map id | id in rows && rows[id].kind == Web && rows[id].enabled && rows[id].hostname.Some? :: rows[id].hostname.value
  }

  lemma NamesAreUnique(c: Config, rows: Rows)
    requires TableOk(c, rows)
    ensures Hostname.Unique(WebNames(rows))
  {
    hide WellFormed;
    var names := WebNames(rows);
    forall i, j | i in names && j in names && Hostname.Lower(names[i]) == Hostname.Lower(names[j]) ensures i == j {
      assert Clash(rows[i], rows[j]);
    }
  }

  lemma StoredName(c: Config, rows: Rows, id: Uuid) returns (stem: string)
    requires TableOk(c, rows) && id in WebNames(rows)
    ensures Hostname.Label(stem) && WebNames(rows)[id] == stem + "." + c.base
  {
    assert WellFormed(c, rows[id]);
    var name := rows[id].hostname.value;
    stem := name[..|name| - |c.base| - 1];
  }

  /** A request for any variant of the name of an enabled web tunnel - any case, dots behind, a port - is
      routed to exactly that tunnel, and the TLS ask accepts the name; this is so for every table that
      creates, updates and deletes can lead to, given a base domain that can be routed at all. */
  lemma {:induction false} StoredNamesAreRouted(c: Config, steps: seq<Step>, t: Table, id: Uuid, host: string, dots: nat, port: string)
    requires Run(c, EMPTY, steps, t) && Hostname.BaseDomain(c.base) && c.base != "" && ':' !in c.base
    requires id in WebNames(t.rows) && Hostname.Lower(host) == WebNames(t.rows)[id] && (port == "" || port[0] == ':')
    ensures Hostname.Route(WebNames(t.rows), host + Hostname.Dots(dots) + port) == Some(id)
    ensures Hostname.HostnameIsEnabled(WebNames(t.rows), host + Hostname.Dots(dots))
  {
    RunKeepsStateOk(c, EMPTY, steps, t);
    NamesAreUnique(c, t.rows);
    var stem := StoredName(c, t.rows, id);
    Hostname.RoutingFindsTheTunnel(c.base, WebNames(t.rows), id, stem, host, dots, port);
    Hostname.RoutingFindsTheTunnel(c.base, WebNames(t.rows), id, stem, host, dots, "");
    var asked := host + Hostname.Dots(dots);
    assert asked + "" == asked;
    Hostname.NoColon(host, stem, c.base);
    Hostname.BeforeColonOf(asked, "");
    Hostname.SameLookup(WebNames(t.rows), asked);
    Hostname.AskIsLookup(WebNames(t.rows), asked);
  }

  /** Who is routed to, exactly: in every such table a request reaches tunnel `id` if and only if that is an enabled
      web tunnel whose name is what precedes the first colon of the host, whatever the case and the dots behind;
      and the ask accepts a name if and only if there is such a tunnel for it. */
  lemma {:induction false} RoutedExactly(c: Config, steps: seq<Step>, t: Table, host: string, id: Uuid)
    requires Run(c, EMPTY, steps, t)
    ensures Hostname.Route(WebNames(t.rows), host) == Some(id) <==>
            id in t.rows && t.rows[id].kind == Web && t.rows[id].enabled && t.rows[id].hostname.Some?
            && Hostname.Lower(t.rows[id].hostname.value) == Hostname.Lower(Hostname.TrimDots(Hostname.BeforeColon(host)))
    ensures Hostname.HostnameIsEnabled(WebNames(t.rows), host) <==>
            exists i :: i in t.rows && t.rows[i].kind == Web && t.rows[i].enabled && t.rows[i].hostname.Some?
                        && Hostname.Lower(t.rows[i].hostname.value) == Hostname.Lower(Hostname.TrimDots(host))
  {
    RunKeepsStateOk(c, EMPTY, steps, t);
    NamesAreUnique(c, t.rows);
    hide StateOk;
    var names := WebNames(t.rows);
    var prefix := Hostname.BeforeColon(host);
    Hostname.AskIsLookup(names, host);
    Hostname.AskIsLookup(names, Hostname.Lower(prefix));
    if id in names {
      Hostname.LowerKeepsHit(names[id], prefix);
    }
    if exists i :: i in t.rows && t.rows[i].kind == Web && t.rows[i].enabled && t.rows[i].hostname.Some?
                   && Hostname.Lower(t.rows[i].hostname.value) == Hostname.Lower(Hostname.TrimDots(host)) {
      var i :| i in t.rows && t.rows[i].kind == Web && t.rows[i].enabled && t.rows[i].hostname.Some?
               && Hostname.Lower(t.rows[i].hostname.value) == Hostname.Lower(Hostname.TrimDots(host));
      assert i in names && Hostname.Hit(names[i], host);
    }
  }

  /** The TLS ask against routing, on every such table. */
  lemma {:induction false} AskMeetsRouting(c: Config, steps: seq<Step>, t: Table, asked: string)
    requires Run(c, EMPTY, steps, t)
    ensures var names := WebNames(t.rows);
      (Hostname.HostnameIsEnabled(names, asked) <==> Hostname.Route(names, asked).Some?)
      <==> if ':' in c.base then !Hostname.HostnameIsEnabled(names, asked)
           else ':' !in asked || !Hostname.HostnameIsEnabled(names, Hostname.BeforeColon(asked))
  {
    RunKeepsStateOk(c, EMPTY, steps, t);
    NamesAreUnique(c, t.rows);
    forall id | id in WebNames(t.rows)
      ensures exists stem :: Hostname.Label(stem) && WebNames(t.rows)[id] == stem + "." + c.base
    {
      var stem := StoredName(c, t.rows, id);
    }
    Hostname.AskAgainstRoute(WebNames(t.rows), c.base, asked);
  }
}
