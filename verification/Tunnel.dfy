/**
 * The gateway's service table and the part of it a connection may use
 * (crates/tcp-tunnel/src/lib.rs and crates/tcp-tunnel/src/bin/gateway.rs). Texts are
 * their UTF-8 bytes.
 */
module Tunnel {
  import opened Base
  import opened Ipv6

  const EQUALS: byte := 61
  const OPEN: byte := 91
  const CLOSE: byte := 93
  const PLUS: byte := 43
  const MAX_SERVICE_ID_LEN := 256

  datatype SpecError =
    | NoEquals
    | EmptyName
    | NameTooLong
    | NoPort
    | UnterminatedLiteral
    | AfterLiteral
    | NotIpv6
    | UnbracketedIpv6
    | EmptyHost
    | BadPort
    | PortZero

  // ---------------------------------------------------------------- splitting texts

  /** `split_once`: around the first occurrence. */
  function SplitOnce(s: Text, c: byte): (r: Option<(Text, Text)>)
    ensures r.Some? ==> s == r.value.0 + [c] + r.value.1 && c !in r.value.0
    ensures r.None? <==> c !in s
  {
    if s == [] then None
    else if s[0] == c then
      assert s == [] + [c] + s[1..];
      Some(([], s[1..]))
    else
      match SplitOnce(s[1..], c)
      case None => None
      case Some((a, b)) =>
        assert s == ([s[0]] + a) + [c] + b;
        Some(([s[0]] + a, b))
  }

  /** `rsplit_once`: around the last occurrence. */
  function RSplitOnce(s: Text, c: byte): (r: Option<(Text, Text)>)
    ensures r.Some? ==> s == r.value.0 + [c] + r.value.1 && c !in r.value.1
    ensures r.None? <==> c !in s
  {
    if s == [] then None
    else
      var init, last := s[..|s| - 1], s[|s| - 1];
      assert s == init + [last];
      if last == c then
        assert s == init + [c] + [];
        Some((init, []))
      else
        match RSplitOnce(init, c)
        case None => None
        case Some((a, b)) =>
          assert s == a + [c] + (b + [last]);
          Some((a, b + [last]))
  }

  /** There is only one way to split around the first occurrence, and one around the last. */
  lemma SplitIsUnique(a: Text, b: Text, c: byte)
    ensures c !in a ==> SplitOnce(a + [c] + b, c) == Some((a, b))
    ensures c !in b ==> RSplitOnce(a + [c] + b, c) == Some((a, b))
  {
    assert (a + [c] + b)[|a|] == c;
    if c !in a {
      var (x, y) := SplitOnce(a + [c] + b, c).value;
      FirstSplit(a, b, x, y, c);
    }
    if c !in b {
      var (x, y) := RSplitOnce(a + [c] + b, c).value;
      LastSplit(a, b, x, y, c);
    }
  }

  lemma FirstSplit(a: Text, b: Text, x: Text, y: Text, c: byte)
    requires a + [c] + b == x + [c] + y && c !in a && c !in x
    ensures a == x && b == y
  {
    var s := a + [c] + b;
    assert s[|a|] == c && s[|x|] == c;
    assert forall i :: 0 <= i < |a| ==> s[i] == a[i];
    assert forall i :: 0 <= i < |x| ==> (x + [c] + y)[i] == x[i];
    assert |a| == |x|;
    assert a == s[..|a|] && x == s[..|x|] && b == s[|a| + 1..] && y == s[|x| + 1..];
  }

  lemma LastSplit(a: Text, b: Text, x: Text, y: Text, c: byte)
    requires a + [c] + b == x + [c] + y && c !in b && c !in y
    ensures a == x && b == y
  {
    var s := a + [c] + b;
    assert s[|a|] == c && s[|x|] == c;
    assert forall i :: |a| < i < |s| ==> s[i] == b[i - |a| - 1];
    assert forall i :: |x| < i < |s| ==> (x + [c] + y)[i] == y[i - |x| - 1];
    assert |a| == |x|;
    assert a == s[..|a|] && x == s[..|x|] && b == s[|a| + 1..] && y == s[|x| + 1..];
  }

  // ---------------------------------------------------------------- upstreams

  predicate IsDigits(s: Text) {
    s != [] && forall i :: 0 <= i < |s| ==> IsDigit(s[i])
  }

  /** `parse::<u16>`: digits, with one plus sign allowed in front, that fit sixteen bits. */
  function ParsePort(s: Text): Option<nat> {
    var digits := if s != [] && s[0] == PLUS then s[1..] else s;
    if IsDigits(digits) && Decimal(digits) < 0x1_0000 then Some(Decimal(digits)) else None
  }

  function ParseHost(host: Text): Result<Text, SpecError> {
    if host != [] && host[0] == OPEN then
      var rest := host[1..];
      match RSplitOnce(rest, CLOSE)
      case None => Err(UnterminatedLiteral)
      case Some((literal, after)) =>
        if after != [] then Err(AfterLiteral)
        else if !IsIpv6(literal) then Err(NotIpv6)
        else Ok(literal)
    else if COLON in host then Err(UnbracketedIpv6)
    else Ok(host)
  }

  /** What is wrong with an upstream address, if anything. */
  function UpstreamError(addr: Text): Option<SpecError> {
    match RSplitOnce(addr, COLON)
    case None => Some(NoPort)
    case Some((host, port)) =>
      match ParseHost(host)
      case Err(e) => Some(e)
      case Ok(name) =>
        if name == [] then Some(EmptyHost)
        else
          match ParsePort(port)
          case None => Some(BadPort)
          case Some(n) => if n == 0 then Some(PortZero) else None
  }

  /** A host: an IPv6 literal in brackets, or a name with neither a colon nor an opening bracket in front. */
  ghost predicate GoodHost(host: Text) {
    || (host != [] && host[0] != OPEN && COLON !in host)
    || exists literal :: host == [OPEN] + literal + [CLOSE] && literal != [] && IsIpv6(literal)
  }

  /** A port: decimal digits, with at most one plus sign in front, of a number from 1 to 65535. */
  ghost predicate GoodPort(port: Text) {
    exists digits :: (port == digits || port == [PLUS] + digits) && IsDigits(digits) && 0 < Decimal(digits) <= 65535
  }

  lemma PortIsGood(port: Text)
    ensures ParsePort(port).Some? && ParsePort(port).value != 0 <==> GoodPort(port)
  {
    if port != [] && port[0] == PLUS {
      assert port == [PLUS] + port[1..];
      forall digits | port == [PLUS] + digits ensures digits == port[1..] {
        assert digits == ([PLUS] + digits)[1..];
      }
      assert !IsDigits(port);
    } else {
      forall digits ensures port != [PLUS] + digits {
        assert ([PLUS] + digits)[0] == PLUS;
      }
    }
  }

  lemma HostIsGood(host: Text)
    ensures ParseHost(host).Ok? && ParseHost(host).value != [] <==> GoodHost(host)
  {
    if host != [] && host[0] == OPEN {
      var rest := host[1..];
      assert host == [OPEN] + rest;
      match RSplitOnce(rest, CLOSE)
      case None =>
        forall literal ensures host != [OPEN] + literal + [CLOSE] {
          assert ([OPEN] + literal + [CLOSE])[|literal| + 1] == CLOSE;
          assert rest != [] ==> rest[|rest| - 1] != CLOSE && host[|host| - 1] == rest[|rest| - 1];
        }
      case Some((literal, after)) =>
        if after == [] {
          assert host == [OPEN] + literal + [CLOSE];
        }
        forall other | host == [OPEN] + other + [CLOSE] ensures other == literal && after == [] {
          assert rest == other + [CLOSE] + [];
          SplitIsUnique(other, [], CLOSE);
        }
    }
  }

  /** An upstream is accepted exactly when it is a good host, a colon and a good port. */
  lemma UpstreamIsGood(addr: Text)
    ensures UpstreamError(addr).None? <==>
      exists host, port :: addr == host + [COLON] + port && COLON !in port && GoodHost(host) && GoodPort(port)
  {
    match RSplitOnce(addr, COLON)
    case None =>
    case Some((host, port)) =>
      HostIsGood(host);
      PortIsGood(port);
      hide ParsePort, ParseHost, GoodPort, GoodHost;
      forall h, p | addr == h + [COLON] + p && COLON !in p ensures h == host && p == port {
        SplitIsUnique(h, p, COLON);
      }
  }

  /** The decimal digits of a number. */
  function DecimalOf(n: nat): Text {
    if n < 10 then [48 + n] else DecimalOf(n / 10) + [48 + n % 10]
  }

  lemma {:induction false} DecimalIsRead(n: nat)
    ensures IsDigits(DecimalOf(n)) && Decimal(DecimalOf(n)) == n && DecimalOf(n)[0] != PLUS
  {
    if n < 10 {
      assert [48 + n][..0] == [];
    } else {
      DecimalIsRead(n / 10);
      var s := DecimalOf(n);
      assert s[..|s| - 1] == DecimalOf(n / 10) && s[|s| - 1] == 48 + n % 10;
    }
  }

  /** The decimal text of every number is read as that number if it fits sixteen bits, with or without a plus sign. */
  lemma PortsAreRead(n: nat)
    ensures ParsePort(DecimalOf(n)) == if n <= 65535 then Some(n) else None
    ensures ParsePort([PLUS] + DecimalOf(n)) == if n <= 65535 then Some(n) else None
  {
    DecimalIsRead(n);
    assert ([PLUS] + DecimalOf(n))[1..] == DecimalOf(n);
  }

  /** What is wrong with a host and a port, in the order in which it is noticed. */
  lemma UpstreamIsRefused(host: Text, port: Text)
    requires COLON !in port
    ensures UpstreamError(host + [COLON] + port) ==
      if host != [] && host[0] == OPEN && CLOSE !in host[1..] then Some(UnterminatedLiteral)
      else if host != [] && host[0] == OPEN && host[|host| - 1] != CLOSE then Some(AfterLiteral)
      else if host != [] && host[0] == OPEN && !IsIpv6(host[1..|host| - 1]) then Some(NotIpv6)
      else if host != [] && host[0] != OPEN && COLON in host then Some(UnbracketedIpv6)
      else if host == [] then Some(EmptyHost)
      else if ParsePort(port).None? then Some(BadPort)
      else if ParsePort(port) == Some(0) then Some(PortZero)
      else None
  {
    hide ParsePort, IsIpv6;
    SplitIsUnique(host, port, COLON);
    if host != [] && host[0] == OPEN {
      BracketsAreSplit(host[1..]);
      if CLOSE in host[1..] && host[|host| - 1] == CLOSE {
        assert host[1..][..|host[1..]| - 1] == host[1..|host| - 1];
        LiteralIsNotEmpty(host[1..|host| - 1]);
      }
    }
  }

  lemma LiteralIsNotEmpty(literal: Text)
    ensures IsIpv6(literal) ==> literal != []
  {
    hide IsIpv6;
    if IsIpv6(literal) {
      LiteralIsPlain(literal);
    }
  }

  lemma BracketsAreSplit(rest: Text)
    ensures RSplitOnce(rest, CLOSE).None? <==> CLOSE !in rest
    ensures CLOSE in rest ==> (RSplitOnce(rest, CLOSE).value.1 == [] <==> rest[|rest| - 1] == CLOSE)
    ensures CLOSE in rest && rest[|rest| - 1] == CLOSE ==> RSplitOnce(rest, CLOSE).value.0 == rest[..|rest| - 1]
  {
    if CLOSE in rest {
      var (a, b) := RSplitOnce(rest, CLOSE).value;
      assert rest == a + [CLOSE] + b;
      assert b != [] ==> rest[|rest| - 1] == b[|b| - 1];
    }
  }

  // ---------------------------------------------------------------- the table

  type Table = map<Text, Text>

  predicate GoodName(name: Text) {
    name != [] && |name| <= MAX_SERVICE_ID_LEN && EQUALS !in name
  }

  /** What every table built from specs satisfies. */
  ghost predicate GoodTable(t: Table) {
    forall name :: name in t ==> GoodName(name) && UpstreamError(t[name]).None?
  }

  /** One `name=host:port` spec: the entry it stands for, or what is wrong with it. */
  function ParseSpec(spec: Text): Result<(Text, Text), SpecError> {
    match SplitOnce(spec, EQUALS)
    case None => Err(NoEquals)
    case Some((name, addr)) =>
      if name == [] then Err(EmptyName)
      else if |name| > MAX_SERVICE_ID_LEN then Err(NameTooLong)
      else
        match UpstreamError(addr)
        case Some(e) => Err(e)
        case None => Ok((name, addr))
  }

  function SpecOf(name: Text, addr: Text): Text {
    name + [EQUALS] + addr
  }

  /** A spec is accepted exactly when it is a good name, an equals sign and a good upstream. */
  lemma SpecRoundTrip(spec: Text, name: Text, addr: Text)
    ensures ParseSpec(spec) == Ok((name, addr)) <==>
      spec == SpecOf(name, addr) && GoodName(name) && UpstreamError(addr).None?
  {
    if spec == SpecOf(name, addr) && GoodName(name) {
      SplitIsUnique(name, addr, EQUALS);
    }
  }

  /** What is wrong with a spec, in the order in which it is noticed. */
  lemma SpecIsRefused(name: Text, addr: Text)
    requires EQUALS !in name
    ensures ParseSpec(SpecOf(name, addr)) ==
      if name == [] then Err(EmptyName)
      else if |name| > 256 then Err(NameTooLong)
      else if UpstreamError(addr).Some? then Err(UpstreamError(addr).value)
      else Ok((name, addr))
    ensures ParseSpec(name) == Err(NoEquals)
  {
    hide UpstreamError;
    SplitIsUnique(name, addr, EQUALS);
  }

  predicate AllGood(specs: seq<Text>) {
    forall i :: 0 <= i < |specs| ==> ParseSpec(specs[i]).Ok?
  }

  /** Position i holds the first malformed spec. */
  predicate FirstBad(specs: seq<Text>, i: int, e: SpecError) {
    && 0 <= i < |specs| && ParseSpec(specs[i]) == Err(e)
    && AllGood(specs[..i])
  }

  /** The table of a list of well-formed specs, inserted one after the other. */
  function TableOf(specs: seq<Text>): Table
    requires AllGood(specs)
  {
    if specs == [] then map[]
    else
      var entry := ParseSpec(specs[|specs| - 1]).value;
      TableOf(specs[..|specs| - 1])[entry.0 := entry.1]
  }

  /** Position i holds the last spec with this name. */
  predicate LastSpec(specs: seq<Text>, name: Text, i: nat)
    requires AllGood(specs)
  {
    && i < |specs| && ParseSpec(specs[i]).value.0 == name
    && forall j :: i < j < |specs| ==> ParseSpec(specs[j]).value.0 != name
  }

  /** The table holds exactly the names of the specs, each with the address of its last one. */
  lemma {:induction false} LastSpecWins(specs: seq<Text>, name: Text)
    requires AllGood(specs)
    ensures name in TableOf(specs) <==>
      exists i :: 0 <= i < |specs| && ParseSpec(specs[i]).value.0 == name
    ensures forall i: nat :: LastSpec(specs, name, i) ==>
      name in TableOf(specs) && TableOf(specs)[name] == ParseSpec(specs[i]).value.1
  {
    hide ParseSpec;
    if specs == [] {
    } else {
      var before := specs[..|specs| - 1];
      LastSpecWins(before, name);
      assert forall i :: 0 <= i < |before| ==> before[i] == specs[i];
      forall i: nat | LastSpec(specs, name, i)
        ensures name in TableOf(specs) && TableOf(specs)[name] == ParseSpec(specs[i]).value.1
      {
        if i < |before| {
          assert LastSpec(before, name, i);
        }
      }
    }
  }

  class ServiceMap {
    var table: Table

    ghost predicate Valid()
      reads this
    {
      GoodTable(table)
    }

    constructor ()
      ensures Valid() && table == map[]
    {
      table := map[];
    }

    method ValidateUpstream(addr: Text) returns (error: Option<SpecError>)
      ensures error == UpstreamError(addr)
    {
      var split := RSplitOnce(addr, COLON);
      if split.None? {
        return Some(NoPort);
      }
      var (host, port) := split.value;
      if host != [] && host[0] == OPEN {
        var end := RSplitOnce(host[1..], CLOSE);
        if end.None? {
          return Some(UnterminatedLiteral);
        }
        if end.value.1 != [] {
          return Some(AfterLiteral);
        }
        host := end.value.0;
        if !IsIpv6(host) {
          return Some(NotIpv6);
        }
      } else if COLON in host {
        return Some(UnbracketedIpv6);
      }
      if host == [] {
        return Some(EmptyHost);
      }
      var number := ParsePort(port);
      if number.None? {
        return Some(BadPort);
      }
      error := if number.value == 0 then Some(PortZero) else None;
    }

    /** Inserts the entry of a spec, over an older one of the same name; a bad spec changes nothing. */
    method InsertSpec(spec: Text) returns (error: Option<SpecError>)
      requires Valid()
      modifies this
      ensures Valid()
      ensures match ParseSpec(spec)
              case Ok((name, addr)) => error == None && table == old(table)[name := addr]
              case Err(e) => error == Some(e) && table == old(table)
    {
      var split := SplitOnce(spec, EQUALS);
      if split.None? {
        return Some(NoEquals);
      }
      var (name, addr) := split.value;
      if name == [] {
        return Some(EmptyName);
      }
      if |name| > MAX_SERVICE_ID_LEN {
        return Some(NameTooLong);
      }
      error := ValidateUpstream(addr);
      if error.None? {
        table := table[name := addr];
      }
    }

    method Clone() returns (copy: ServiceMap)
      requires Valid()
      ensures fresh(copy) && copy.Valid() && copy.table == table
    {
      copy := new ServiceMap();
      copy.table := table;
    }

    function Get(id: Text): (addr: Option<Text>)
      reads this
      ensures addr.Some? <==> id in table
      ensures addr.Some? ==> addr.value == table[id]
    {
      if id in table then Some(table[id]) else None
    }
  }

  /** Builds the table of a list of specs; it fails at the first malformed one. */
  method FromSpecs(specs: seq<Text>) returns (services: ServiceMap, error: Option<SpecError>)
    ensures fresh(services) && services.Valid()
    ensures error.None? <==> AllGood(specs)
    ensures error.Some? ==> exists i :: FirstBad(specs, i, error.value)
    ensures error.None? ==> services.table == TableOf(specs)
  {
    hide ParseSpec;
    services := new ServiceMap();
    for k := 0 to |specs|
      invariant fresh(services) && services.Valid()
      invariant AllGood(specs[..k]) && services.table == TableOf(specs[..k])
    {
      error := services.InsertSpec(specs[k]);
      if error.Some? {
        assert FirstBad(specs, k, error.value);
        return;
      }
      assert specs[..k + 1][..k] == specs[..k];
    }
    assert specs[..|specs|] == specs;
    error := None;
  }

  // ---------------------------------------------------------------- the scope of a connection

  type EndpointId = seq<byte>

  /** One access rule: `service` None grants every configured service. */
  datatype AllowRule = AllowRule(endpoint: EndpointId, service: Option<Text>)

  /** Some rule grants this service to this endpoint. */
  predicate Grants(rules: seq<AllowRule>, remote: EndpointId, name: Text) {
    exists r :: r in rules && r.endpoint == remote && (r.service.None? || r.service == Some(name))
  }

  predicate Matches(rules: seq<AllowRule>, remote: EndpointId) {
    exists r :: r in rules && r.endpoint == remote
  }

  /** The entries of the table that the rules grant. */
  function Granted(rules: seq<AllowRule>, remote: EndpointId, table: Table): Table {
    map name | name in table && Grants(rules, remote, name) :: table[name]
  }

  /** The part of the table an endpoint may use; None rejects the connection. */
  function Scope(rules: seq<AllowRule>, remote: EndpointId, table: Table): Option<Table> {
    if rules == [] then Some(table)
    else if !Matches(rules, remote) then None
    else Some(Granted(rules, remote, table))
  }

  /**
   * A connection is rejected exactly if there are rules and none is for its endpoint. Otherwise it
   * may use exactly the configured services that a rule for it names, or all of them if a rule for
   * it names none or there are no rules, each at its configured address.
   */
  lemma ScopeMeans(rules: seq<AllowRule>, remote: EndpointId, table: Table)
    ensures Scope(rules, remote, table).None? <==> rules != [] && forall r :: r in rules ==> r.endpoint != remote
    ensures Scope(rules, remote, table).Some? ==>
      && (forall name :: name in Scope(rules, remote, table).value <==>
            name in table
            && (rules == []
                || exists r :: r in rules && r.endpoint == remote && (r.service == None || r.service == Some(name))))
      && forall name :: name in Scope(rules, remote, table).value ==>
           Scope(rules, remote, table).value[name] == table[name]
  {
  }

  predicate Unscoped(rules: seq<AllowRule>, remote: EndpointId) {
    exists r :: r in rules && r.endpoint == remote && r.service.None?
  }

  lemma OneMoreRule(rules: seq<AllowRule>, rule: AllowRule, remote: EndpointId)
    ensures Matches(rules + [rule], remote) <==> Matches(rules, remote) || rule.endpoint == remote
    ensures Unscoped(rules + [rule], remote) <==>
      Unscoped(rules, remote) || (rule.endpoint == remote && rule.service.None?)
    ensures forall name :: Grants(rules + [rule], remote, name) <==>
      Grants(rules, remote, name) || (rule.endpoint == remote && (rule.service.None? || rule.service == Some(name)))
  {
    assert rule in rules + [rule];
    assert forall r :: r in rules + [rule] <==> r in rules || r == rule;
  }

  /** A further named rule grants at most its one entry. */
  lemma GrantedGrows(rules: seq<AllowRule>, rule: AllowRule, remote: EndpointId, table: Table)
    requires rule.endpoint != remote || rule.service.Some?
    ensures Granted(rules + [rule], remote, table)
         == if rule.endpoint == remote && rule.service.value in table
            then Granted(rules, remote, table)[rule.service.value := table[rule.service.value]]
            else Granted(rules, remote, table)
  {
    OneMoreRule(rules, rule, remote);
    hide Grants;
  }

  lemma UnscopedGrantsAll(rules: seq<AllowRule>, remote: EndpointId, table: Table)
    requires Unscoped(rules, remote)
    ensures Scope(rules, remote, table) == Some(table)
  {
    assert forall name :: Grants(rules, remote, name);
    assert rules != [] && Matches(rules, remote);
    assert Granted(rules, remote, table) == table;
  }

  /**
   * The scope of a connection is exactly what the rules grant: with rules and none for
   * the endpoint it is rejected, an unscoped rule grants the whole table, and otherwise
   * it holds the granted services with their addresses unchanged. Putting a validated
   * entry back in never fails.
   */
  method ConnectionScope(remote: EndpointId, rules: seq<AllowRule>, services: ServiceMap)
    returns (r: Option<ServiceMap>)
    requires services.Valid()
    ensures r.None? <==> Scope(rules, remote, services.table).None?
    ensures r.Some? ==> r.value.Valid() && Some(r.value.table) == Scope(rules, remote, services.table)
    ensures r.Some? ==> fresh(r.value)
  {
    if rules == [] {
      var all := services.Clone();
      return Some(all);
    }
    hide UpstreamError, ParseSpec, Grants, Matches, Unscoped, Granted;
    var scoped := new ServiceMap();
    var matched := false;
    NoRules(remote, services.table);
    for k := 0 to |rules|
      invariant scoped.Valid() && fresh(scoped)
      invariant matched == Matches(rules[..k], remote) && !Unscoped(rules[..k], remote)
      invariant scoped.table == Granted(rules[..k], remote, services.table)
    {
      var rule := rules[k];
      assert rules[..k + 1] == rules[..k] + [rule];
      OneMoreRule(rules[..k], rule, remote);
      if rule.endpoint != remote || rule.service.Some? {
        GrantedGrows(rules[..k], rule, remote, services.table);
      }
      if rule.endpoint != remote {
        continue;
      }
      matched := true;
      match rule.service {
        case None =>
          UnscopedPrefix(rules, k, remote);
          UnscopedGrantsAll(rules, remote, services.table);
          var all := services.Clone();
          return Some(all);
        case Some(name) =>
          var addr := services.Get(name);
          if addr.Some? {
            SpecRoundTrip(SpecOf(name, addr.value), name, addr.value);
            var error := scoped.InsertSpec(SpecOf(name, addr.value));
            if error.Some? {
              return None;
            }
          }
      }
    }
    assert rules[..|rules|] == rules;
    r := if matched then Some(scoped) else None;
  }

  lemma NoRules(remote: EndpointId, table: Table)
    ensures !Matches([], remote) && !Unscoped([], remote) && Granted([], remote, table) == map[]
  {
  }

  lemma UnscopedPrefix(rules: seq<AllowRule>, k: nat, remote: EndpointId)
    requires k < |rules| && rules[k].endpoint == remote && rules[k].service.None?
    ensures Unscoped(rules, remote)
  {
    assert rules[k] in rules;
  }

  /** Neither the order of the rules nor repeating them matters. */
  lemma ScopeIgnoresOrder(rules: seq<AllowRule>, others: seq<AllowRule>, remote: EndpointId, table: Table)
    requires forall r :: r in rules <==> r in others
    ensures Scope(rules, remote, table) == Scope(others, remote, table)
  {
    if rules != [] { assert rules[0] in others; }
    if others != [] { assert others[0] in rules; }
    assert Matches(rules, remote) <==> Matches(others, remote);
    assert forall name :: Grants(rules, remote, name) <==> Grants(others, remote, name);
    assert Granted(rules, remote, table) == Granted(others, remote, table);
  }

  /** A rule for another endpoint changes nothing, and a further rule never takes a service away. */
  lemma RulesOnlyWiden(rules: seq<AllowRule>, rule: AllowRule, remote: EndpointId, table: Table)
    requires rules != []
    ensures rule.endpoint != remote ==> Scope(rules + [rule], remote, table) == Scope(rules, remote, table)
    ensures Scope(rules, remote, table).Some? ==>
      && Scope(rules + [rule], remote, table).Some?
      && Scope(rules, remote, table).value.Items <= Scope(rules + [rule], remote, table).value.Items
  {
    OneMoreRule(rules, rule, remote);
    hide Grants, Matches;
    if rule.endpoint != remote {
      assert Granted(rules + [rule], remote, table) == Granted(rules, remote, table);
    }
  }
}
