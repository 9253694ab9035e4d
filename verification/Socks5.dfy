/** The SOCKS5 side of a client connection: greeting, user name and password, and connection request, as
    parsers of whatever has arrived so far. What a parser does not consume is presented again. */
module Socks5 {
  import opened Lists

  type Byte = x: nat | x < 256
  type Bytes = seq<Byte>

  datatype Phase = Unknown | WaitForAuthInfo | WaitForAccountExchange | WaitForConnectionRequest

  datatype Address =
    | Ipv4(ip: Bytes, port: nat)
    | Domain(name: Bytes, port: nat)
    | Ipv6(ip: Bytes, port: nat)

  /** `RequestAuth` without a key asks for the account of the client's address. */
  datatype Act = Silent | RequestAuth(key: Option<Bytes>) | Open(address: Address)

  /** What a handler does: bytes consumed, or none for an invalid size that closes the connection; the
      phase; whether the connection is killed; what is posted to the client; what is asked for. */
  datatype Reaction = Reaction(consumed: Option<nat>, phase: Phase, killed: bool, reply: Bytes, act: Act)

  function Wait(phase: Phase): Reaction {
    Reaction(Some(0), phase, false, [], Silent)
  }

  function Kill(phase: Phase): Reaction {
    Reaction(Some(0), phase, true, [], Silent)
  }

  const USER_PASS: Byte := 2

  // ---------------------------------------------------------------------------------------
  // The handlers
  // ---------------------------------------------------------------------------------------

  /** `OnChallenge` for version 5. */
  function OnGreeting(data: Bytes): Reaction
    requires |data| > 0 && data[0] == 5
  {
    if |data| < 3 then Wait(Unknown) else
      var methods: nat := data[1];
      if methods == 0 then Kill(Unknown)
      else if |data| < 2 + methods then Wait(Unknown)
      else if USER_PASS in data[2..2 + methods] then Reaction(Some(2 + methods), WaitForAuthInfo, false, [5, 2], Silent)
      else Reaction(Some(2 + methods), WaitForAuthInfo, true, [5, 255], Silent)
  }

  function OnClientAuth(data: Bytes): Reaction {
    if |data| < 3 then Wait(WaitForAuthInfo)
    else if data[0] == 1 then
      var n: nat := data[1];
      if |data| < 3 + n then Wait(WaitForAuthInfo) else
        var p: nat := data[2 + n];
        if |data| < 3 + n + p then Wait(WaitForAuthInfo)
        else
          var key := if n != 0 || p != 0 then Some(data[2..2 + n] + [COLON] + data[3 + n..3 + n + p]) else None;
          Reaction(Some(3 + n + p), WaitForAccountExchange, false, [], RequestAuth(key))
    else if data[0] == 0 then Reaction(Some(1), WaitForAccountExchange, false, [], RequestAuth(None))
    else Reaction(None, WaitForAuthInfo, false, [], Silent)
  }

  const COLON: Byte := 58

  function Port(high: Byte, low: Byte): nat {
    high * 256 + low
  }

  /** Everything that has arrived is consumed. The phase is left to the opening of the remote connection. */
  function OnConnectionRequest(data: Bytes): Reaction {
    var phase := WaitForConnectionRequest;
    if |data| < 10 then Wait(phase)
    else if |data| >= 262 then Kill(phase)
    else if data[0] != 5 || data[2] != 0 then Kill(phase)
    else if data[3] == 1 then
      if data[1] != 1 then Kill(phase)
      else Reaction(Some(|data|), phase, false, [], Open(Ipv4(data[4..8], Port(data[8], data[9]))))
    else if data[3] == 3 then
      var n: nat := data[4];
      if |data| < 7 + n then Wait(phase)
      else Reaction(Some(|data|), phase, false, [], Open(Domain(data[5..5 + n], Port(data[5 + n], data[6 + n]))))
    else if data[3] == 4 then
      if |data| < 22 then Wait(phase)
      else Reaction(Some(|data|), phase, false, [], Open(Ipv6(data[4..20], Port(data[20], data[21]))))
    else Kill(phase)
  }

  // ---------------------------------------------------------------------------------------
  // The messages of the protocol
  // ---------------------------------------------------------------------------------------

  /** Section 3 of RFC 1928. */
  function Greeting(methods: Bytes): Bytes
    requires 0 < |methods| < 256
  {
    [5, |methods|] + methods
  }

  /** Section 2 of RFC 1929. */
  function UserPass(name: Bytes, pass: Bytes): Bytes
    requires |name| < 256 && |pass| < 256
  {
    [1, |name|] + name + [|pass|] + pass
  }

  predicate IsAddress(a: Address) {
    a.port < 65536 &&
    match a
    case Ipv4(ip, _) => |ip| == 4
    case Domain(name, _) => |name| < 256
    case Ipv6(ip, _) => |ip| == 16
  }

  const CONNECT: Byte := 1

  /** A request for operation `op`, section 4 of RFC 1928. */
  function Command(op: Byte, a: Address): Bytes
    requires IsAddress(a)
  {
    [5, op, 0] +
    (match a
     case Ipv4(ip, _) => [1] + ip
     case Domain(name, _) => [3, |name|] + name
     case Ipv6(ip, _) => [4] + ip) + [a.port / 256, a.port % 256]
  }

  function Request(a: Address): Bytes
    requires IsAddress(a)
  {
    Command(CONNECT, a)
  }

  // ---------------------------------------------------------------------------------------
  // Parsing the messages
  // ---------------------------------------------------------------------------------------

  /** A complete greeting is consumed whole, whatever follows it, and user/pass is chosen exactly if it
      is offered. */
  lemma GreetingParses(methods: Bytes, rest: Bytes)
    requires 0 < |methods| < 256
    ensures var r := OnGreeting(Greeting(methods) + rest);
      && r.consumed == Some(|Greeting(methods)|) && r.phase == WaitForAuthInfo
      && (if USER_PASS in methods then !r.killed && r.reply == [5, 2] else r.killed && r.reply == [5, 255])
  {
    var data := Greeting(methods) + rest;
    assert data[2..2 + |methods|] == methods;
  }

  lemma GreetingWaits(methods: Bytes, n: nat)
    requires 0 < |methods| < 256 && 0 < n < |Greeting(methods)|
    ensures OnGreeting(Greeting(methods)[..n]) == Reaction(Some(0), Unknown, false, [], Silent)
  {
  }

  /** Whatever makes the connection go on is a greeting; one without methods is killed, and nothing else is. */
  lemma AcceptedIsGreeting(data: Bytes) returns (methods: Bytes)
    requires |data| > 0 && data[0] == 5
    ensures OnGreeting(data).phase == WaitForAuthInfo ==>
      && 0 < |methods| < 256 && Greeting(methods) <= data && OnGreeting(data).consumed == Some(|Greeting(methods)|)
    ensures OnGreeting(data).phase != WaitForAuthInfo ==>
      OnGreeting(data) == Reaction(Some(0), Unknown, |data| >= 3 && data[1] == 0, [], Silent)
  {
    methods := [];
    if OnGreeting(data).phase == WaitForAuthInfo {
      var n: nat := data[1];
      methods := data[2..2 + n];
      assert Greeting(methods) == data[..2 + n];
    }
  }

  /** User name and password come out as the key `name:pass`, and as no key if both are empty. */
  lemma UserPassParses(name: Bytes, pass: Bytes, rest: Bytes)
    requires |name| < 256 && |pass| < 256
    ensures OnClientAuth(UserPass(name, pass) + rest) ==
      Reaction(Some(|UserPass(name, pass)|), WaitForAccountExchange, false, [],
               RequestAuth(if name == [] && pass == [] then None else Some(name + [COLON] + pass)))
  {
    var data := UserPass(name, pass) + rest;
    assert data[2..2 + |name|] == name;
    assert data[2 + |name|] == |pass|;
    assert data[3 + |name|..3 + |name| + |pass|] == pass;
  }

  lemma UserPassWaits(name: Bytes, pass: Bytes, n: nat)
    requires |name| < 256 && |pass| < 256 && n < |UserPass(name, pass)|
    ensures OnClientAuth(UserPass(name, pass)[..n]) == Reaction(Some(0), WaitForAuthInfo, false, [], Silent)
  {
    var data := UserPass(name, pass)[..n];
    if n > 2 + |name| { assert data[2 + |name|] == |pass|; }
  }

  /** Whatever is accepted as user name and password is the encoding of one pair. */
  lemma AcceptedIsUserPass(data: Bytes) returns (name: Bytes, pass: Bytes)
    requires |data| > 0 && data[0] == 1 && OnClientAuth(data).act.RequestAuth?
    ensures |name| < 256 && |pass| < 256 && OnClientAuth(data).consumed == Some(|UserPass(name, pass)|)
    ensures data[..|UserPass(name, pass)|] == UserPass(name, pass)
  {
    var n: nat := data[1];
    var p: nat := data[2 + n];
    name, pass := data[2..2 + n], data[3 + n..3 + n + p];
    assert UserPass(name, pass) == data[..3 + n + p];
  }

  /** Without name and password one byte is consumed and the account of the client's address is asked for; any
      other version closes the connection. Nothing else closes it, and nothing is done before three bytes
      have arrived. */
  lemma OtherAuthInfo(data: Bytes)
    ensures |data| >= 3 && data[0] == 0 ==>
      OnClientAuth(data) == Reaction(Some(1), WaitForAccountExchange, false, [], RequestAuth(None))
    ensures OnClientAuth(data).consumed.None? <==> |data| >= 3 && data[0] > 1
    ensures |data| < 3 || data[0] > 1 ==> OnClientAuth(data).phase == WaitForAuthInfo && OnClientAuth(data).act.Silent?
    ensures !OnClientAuth(data).killed && OnClientAuth(data).reply == []
  {
  }

  lemma PortReads(port: nat)
    requires port < 65536
    ensures port / 256 < 256 && Port(port / 256, port % 256) == port
  {
  }

  lemma CommandShape(op: Byte, a: Address)
    requires IsAddress(a)
    ensures var data := Command(op, a);
      && |data| == (match a case Ipv4(_, _) => 10 case Domain(name, _) => 7 + |name| case Ipv6(_, _) => 22)
      && data[0] == 5 && data[1] == op && data[2] == 0
      && data[|data| - 2] == a.port / 256 && data[|data| - 1] == a.port % 256
      && (match a
          case Ipv4(ip, _) => data[3] == 1 && data[4..8] == ip
          case Domain(name, _) => data[3] == 3 && data[4] == |name| && data[5..5 + |name|] == name
          case Ipv6(ip, _) => data[3] == 4 && data[4..20] == ip)
  {
    PortReads(a.port);
  }

  lemma RequestFields(op: Byte, a: Address, rest: Bytes)
    requires IsAddress(a)
    ensures var data, n := Command(op, a) + rest, |Command(op, a)|;
      && data[0] == 5 && data[1] == op && data[2] == 0
      && (match a
          case Ipv4(ip, _) => n == 10 && data[3] == 1 && data[4..8] == ip
          case Domain(name, _) => n == 7 + |name| && data[3] == 3 && data[4] == |name| && data[5..5 + |name|] == name
          case Ipv6(ip, _) => n == 22 && data[3] == 4 && data[4..20] == ip)
      && Port(data[n - 2], data[n - 1]) == a.port
  {
    CommandShape(op, a);
    PortReads(a.port);
    var command := Command(op, a);
    hide Command;
    var from, to := if a.Domain? then 5 else 4, |command| - 2;
    assert (command + rest)[from..to] == command[from..to];
  }

  /** A request and what has arrived behind it, of every operation. Below 10 bytes it is waited on, from 262
      bytes on it is killed. In between it is opened, unless it is for an IPv4 target and not CONNECT, and
      everything is consumed, whatever it is. */
  lemma RequestParses(op: Byte, a: Address, rest: Bytes)
    requires IsAddress(a)
    ensures var data := Command(op, a) + rest;
      OnConnectionRequest(data) ==
        if |data| < 10 then Reaction(Some(0), WaitForConnectionRequest, false, [], Silent)
        else if |data| >= 262 || (a.Ipv4? && op != CONNECT) then
          Reaction(Some(0), WaitForConnectionRequest, true, [], Silent)
        else Reaction(Some(|data|), WaitForConnectionRequest, false, [], Open(a))
  {
    RequestFields(op, a, rest);
    hide Command;
  }

  /** A request whose host name has a usable length, and any request for an address. */
  predicate Usable(a: Address) {
    a.Domain? ==> 3 <= |a.name| <= 254
  }

  /** A CONNECT request is opened and consumed, itself and nothing else, exactly if it is usable and nothing
      follows it. A short host name is waited on exactly while fewer than 10 bytes have arrived, so bytes
      that follow it open it; a name of 255 bytes is always killed. */
  lemma RequestParsesExactly(a: Address, rest: Bytes)
    requires IsAddress(a)
    ensures var r := OnConnectionRequest(Request(a) + rest);
      && (r.act == Open(a) && r.consumed == Some(|Request(a)|) <==> Usable(a) && rest == [])
      && (r == Wait(WaitForConnectionRequest) <==> a.Domain? && |a.name| + |rest| < 3)
      && (r == Kill(WaitForConnectionRequest) <==> |Request(a)| + |rest| >= 262)
      && (r.act == Open(a) ==> r.consumed == Some(|Request(a)| + |rest|))
  {
    RequestFields(CONNECT, a, rest);
    RequestParses(CONNECT, a, rest);
    hide Command;
  }

  /** The operation is looked at for IPv4 targets only: it makes a difference exactly for a request for one
      of these that is not CONNECT and not too long, which is refused. Any other request is treated as if it
      were CONNECT. */
  lemma OperationMattersExactly(op: Byte, a: Address, rest: Bytes)
    requires IsAddress(a)
    ensures OnConnectionRequest(Command(op, a) + rest) != OnConnectionRequest(Request(a) + rest) <==>
      a.Ipv4? && op != CONNECT && |rest| < 252
    ensures a.Ipv4? && op != CONNECT ==> OnConnectionRequest(Command(op, a) + rest) == Kill(WaitForConnectionRequest)
  {
    RequestFields(op, a, rest);
    RequestFields(CONNECT, a, rest);
    RequestParses(op, a, rest);
    RequestParses(CONNECT, a, rest);
    hide Command;
  }

  /** A request that has not arrived as a whole is waited for. */
  lemma RequestWaits(a: Address, n: nat)
    requires IsAddress(a) && n < |Request(a)|
    ensures OnConnectionRequest(Request(a)[..n]) == Reaction(Some(0), WaitForConnectionRequest, false, [], Silent)
  {
    CommandShape(CONNECT, a);
    hide Command;
  }

  lemma PortWritten(high: Byte, low: Byte)
    ensures Port(high, low) < 65536 && Port(high, low) / 256 == high && Port(high, low) % 256 == low
  {
  }

  /** Whatever is opened is a request for the address, for CONNECT if the address is an IPv4 address. */
  lemma OpenedIsRequest(data: Bytes)
    requires OnConnectionRequest(data).act.Open?
    ensures var r := OnConnectionRequest(data);
      && IsAddress(r.act.address) && Command(data[1], r.act.address) <= data
      && (r.act.address.Ipv4? ==> data[1] == 1)
      && r == Reaction(Some(|data|), WaitForConnectionRequest, false, [], Open(r.act.address))
  {
    var a := OnConnectionRequest(data).act.address;
    var n := match a case Ipv4(_, _) => 10 case Domain(name, _) => 7 + |name| case Ipv6(_, _) => 22;
    PortWritten(data[n - 2], data[n - 1]);
    hide Port;
    assert Command(data[1], a) == data[..n];
  }

  /** From 10 bytes on, a request is killed exactly for its length, its version, its reserved byte, its type
      of address or, for IPv4, its operation; it never closes the connection otherwise. */
  lemma RequestKilledExactly(data: Bytes)
    ensures var r := OnConnectionRequest(data);
      && (r.killed <==>
            && |data| >= 10
            && (|data| >= 262 || data[0] != 5 || data[2] != 0 || data[3] !in {1, 3, 4}
                || (data[3] == 1 && data[1] != 1)))
      && (!r.act.Open? ==> r == Reaction(Some(0), WaitForConnectionRequest, r.killed, [], Silent))
  {
  }

  // ---------------------------------------------------------------------------------------
  // The handlers that scan or write their buffer
  // ---------------------------------------------------------------------------------------

  class ClientConnection {
    var phase: Phase
    var killed: bool
    var reply: Bytes

    constructor ()
      ensures phase == Unknown && !killed && reply == []
    {
      phase, killed, reply := Unknown, false, [];
    }

    method OnS5Challenge(data: array<Byte>) returns (consumed: nat)
      requires data.Length >= 3 && data[0] == 5 && phase == Unknown && !killed && reply == []
      modifies this
      ensures OnGreeting(data[..]) == Reaction(Some(consumed), phase, killed, reply, Silent)
    {
      var methods: nat := data[1];
      if methods == 0 {
        killed := true;
        return 0;
      }
      var headerSize := 2 + methods;
      if data.Length < headerSize { return 0; }
      var userPassSupport := false;
      var i := 0;
      while i < methods
        invariant 0 <= i <= methods
        invariant userPassSupport <==> USER_PASS in data[2..2 + i]
      {
        if data[2 + i] == USER_PASS { userPassSupport := true; }
        i := i + 1;
      }
      assert data[2..2 + methods] == data[..][2..2 + methods];
      if userPassSupport {
        reply := [5, 2];
      } else {
        reply := [5, 255];
        killed := true;
      }
      phase := WaitForAuthInfo;
      consumed := headerSize;
    }

    /** The key is made in the buffer: the length of the password gives way to a colon. While anything is
        missing the buffer is left alone. */
    method OnS5ClientAuth(data: array<Byte>) returns (consumed: Option<nat>, act: Act)
      requires phase == WaitForAuthInfo && !killed && reply == []
      modifies this, data
      ensures OnClientAuth(old(data[..])) == Reaction(consumed, phase, killed, reply, act)
      ensures phase == WaitForAuthInfo ==> data[..] == old(data[..])
    {
      act := Silent;
      if data.Length < 3 { return Some(0), act; }
      var key: Option<Bytes> := None;
      var offset: nat := 1;
      if data[0] == 1 {
        var n: nat := data[1];
        if data.Length < 3 + n { return Some(0), act; }
        var p: nat := data[2 + n];
        if data.Length < 3 + n + p { return Some(0), act; }
        ghost var before := data[..];
        data[2 + n] := COLON;
        offset := 3 + n + p;
        if n != 0 || p != 0 {
          key := Some(data[2..offset]);
          assert data[2..offset] == before[2..2 + n] + [COLON] + before[3 + n..3 + n + p];
        }
      } else if data[0] != 0 {
        return None, act;
      }
      act := RequestAuth(key);
      phase := WaitForAccountExchange;
      consumed := Some(offset);
    }
  }
}
