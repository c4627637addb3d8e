/**
 How often a write can reach the CCU: `withRetry` (src/middleware/retry.ts) around
 `SessionManager.call` (src/ccu/session.ts), and the retry decision of set_value and
 put_paramset (src/tools/control.ts) on what src/middleware/resolver.ts knows.

 The world answers from an oracle: the event at position `n` of a trace is decided
 by `answers(n)`.
 */
module Retry {
  import opened Wrappers

  /** How a request, or a whole call, ended. */
  datatype Outcome = Success | AuthError | Timeout | Unreachable | OtherError

  datatype LoginAnswer = NewSession | SameSession | NoSession | LoginRejected(error: Outcome)

  datatype Answer = Answer(loggedIn: bool, outcome: Outcome, login: LoginAnswer, acquired: bool)

  type Oracle = nat -> Answer

  datatype Ev =
    | Acquired(ok: bool)
    | Slept
    | Invoked(write: bool)
    | LoggedIn(answer: LoginAnswer)
    | Sent(write: bool, outcome: Outcome)
    | Returned(write: bool, outcome: Outcome)

  datatype Run = Run(trace: seq<Ev>, result: Outcome)

  datatype Rpc = SetValueRpc | PutParamsetRpc | ProgramExecute | RunScript | OtherRpc

  predicate NonIdempotent(m: Rpc) {
    m.ProgramExecute? || m.RunScript?
  }

  predicate Retriable(o: Outcome) {
    o.Timeout? || o.Unreachable?
  }

  // ---------------------------------------------------------------- SessionManager.call

  function ErrorOf(l: LoginAnswer): Outcome
    requires l.LoginRejected?
  {
    if l.error.Success? then OtherError else l.error
  }

  /** After AUTH: log in again, and send once more if that brought another session. */
  function ReloginRun(a: Oracle, t: seq<Ev>, write: bool): Run {
    var l := a(|t|).login;
    var t1 := t + [LoggedIn(l)];
    match l
    case LoginRejected(_) => Run(t1, ErrorOf(l))
    case SameSession => Run(t1, AuthError)
    case NoSession => Run(t1, AuthError)
    case NewSession => Run(t1 + [Sent(write, a(|t1|).outcome)], a(|t1|).outcome)
  }

  function SendRun(a: Oracle, t: seq<Ev>, write: bool): Run {
    var o := a(|t|).outcome;
    var t1 := t + [Sent(write, o)];
    if o.AuthError? then ReloginRun(a, t1, write) else Run(t1, o)
  }

  function CallRun(a: Oracle, t: seq<Ev>, write: bool): Run {
    if a(|t|).loggedIn then SendRun(a, t, write)
    else
      var l := a(|t|).login;
      var t1 := t + [LoggedIn(l)];
      match l
      case LoginRejected(_) => Run(t1, ErrorOf(l))
      case NoSession => Run(t1, AuthError)
      case _ => SendRun(a, t1, write)
  }

  /** A whole call as its caller sees it. */
  function InvokeRun(a: Oracle, t: seq<Ev>, write: bool): Run {
    var c := CallRun(a, t + [Invoked(write)], write);
    c.(trace := c.trace + [Returned(write, c.result)])
  }

  // ---------------------------------------------------------------- withRetry

  function Attempts(a: Oracle, t: seq<Ev>, write: bool, attempt: nat, maxRetries: nat, limited: bool): Run
    decreases maxRetries - attempt
  {
    var c := InvokeRun(a, t, write);
    if attempt < maxRetries && Retriable(c.result) then
      var t1 := c.trace + [Slept];
      if !limited then Attempts(a, t1, write, attempt + 1, maxRetries, limited)
      else if !a(|t1|).acquired then Run(t1 + [Acquired(false)], OtherError)
      else Attempts(a, t1 + [Acquired(true)], write, attempt + 1, maxRetries, limited)
    else c
  }

  function WithRetryRun(a: Oracle, t: seq<Ev>, m: Rpc, write: bool, maxRetries: nat, limited: bool): Run {
    if NonIdempotent(m) then InvokeRun(a, t, write) else Attempts(a, t, write, 0, maxRetries, limited)
  }

  // ---------------------------------------------------------------- the two write tools

  const MAX_RETRIES: nat := 1

  /** Acquire a token, then write: with retries only when that is safe. */
  function WriteRun(a: Oracle, t: seq<Ev>, m: Rpc, safe: bool): Run {
    if !a(|t|).acquired then Run(t + [Acquired(false)], OtherError)
    else if safe then WithRetryRun(a, t + [Acquired(true)], m, true, MAX_RETRIES, true)
    else InvokeRun(a, t + [Acquired(true)], true)
  }

  /** set_value reads the previous value first, and ignores how that ends. */
  function SetValueRun(a: Oracle, t: seq<Ev>, safe: bool): Run {
    var t1 := if a(|t|).acquired then InvokeRun(a, t + [Acquired(true)], false).trace else t + [Acquired(false)];
    WriteRun(a, t1, SetValueRpc, safe)
  }

  /** put_paramset rejects an empty set before anything is sent. */
  function PutParamsetRun(a: Oracle, t: seq<Ev>, empty: bool, safe: bool): Run {
    if empty then Run(t, OtherError) else WriteRun(a, t, PutParamsetRpc, safe)
  }

  // ---------------------------------------------------------------- the same, step by step

  class World {
    const answers: Oracle
    var trace: seq<Ev>

    constructor (answers: Oracle)
      ensures this.answers == answers && trace == []
    {
      this.answers := answers;
      trace := [];
    }

    method Send(write: bool) returns (o: Outcome)
      modifies this
      ensures o == answers(|old(trace)|).outcome && trace == old(trace) + [Sent(write, o)]
    {
      o := answers(|trace|).outcome;
      trace := trace + [Sent(write, o)];
    }

    method Login() returns (l: LoginAnswer)
      modifies this
      ensures l == answers(|old(trace)|).login && trace == old(trace) + [LoggedIn(l)]
    {
      l := answers(|trace|).login;
      trace := trace + [LoggedIn(l)];
    }

    method Acquire() returns (ok: bool)
      modifies this
      ensures ok == answers(|old(trace)|).acquired && trace == old(trace) + [Acquired(ok)]
    {
      ok := answers(|trace|).acquired;
      trace := trace + [Acquired(ok)];
    }

    method SessionCall(write: bool) returns (o: Outcome)
      modifies this
      ensures Run(trace, o) == CallRun(answers, old(trace), write)
    {
      if !answers(|trace|).loggedIn {
        var first := Login();
        if first.LoginRejected? {
          return ErrorOf(first);
        }
        if first.NoSession? {
          return AuthError;
        }
      }
      o := Send(write);
      if o.AuthError? {
        var again := Login();
        if again.LoginRejected? {
          return ErrorOf(again);
        }
        if !again.NewSession? {
          return AuthError;
        }
        o := Send(write);
      }
    }

    method Invoke(write: bool) returns (o: Outcome)
      modifies this
      ensures Run(trace, o) == InvokeRun(answers, old(trace), write)
    {
      trace := trace + [Invoked(write)];
      o := SessionCall(write);
      trace := trace + [Returned(write, o)];
    }

    method WithRetry(m: Rpc, write: bool, maxRetries: nat, limited: bool) returns (o: Outcome)
      modifies this
      ensures Run(trace, o) == WithRetryRun(answers, old(trace), m, write, maxRetries, limited)
    {
      if NonIdempotent(m) {
        o := Invoke(write);
        return;
      }
      o := OtherError;
      var attempt := 0;
      ghost var goal := Attempts(answers, trace, write, 0, maxRetries, limited);
      while attempt <= maxRetries
        invariant attempt <= maxRetries
        invariant Attempts(answers, trace, write, attempt, maxRetries, limited) == goal
        decreases maxRetries - attempt
      {
        o := Invoke(write);
        if Retriable(o) && attempt < maxRetries {
          trace := trace + [Slept];
          if limited {
            var ok := Acquire();
            if !ok {
              return OtherError;
            }
          }
          attempt := attempt + 1;
          continue;
        }
        return o;
      }
    }

    method Write(m: Rpc, safe: bool) returns (o: Outcome)
      modifies this
      ensures Run(trace, o) == WriteRun(answers, old(trace), m, safe)
    {
      var ok := Acquire();
      if !ok {
        return OtherError;
      }
      if safe {
        o := WithRetry(m, true, MAX_RETRIES, true);
      } else {
        o := Invoke(true);
      }
    }

    method SetValue(safe: bool) returns (o: Outcome)
      modifies this
      ensures Run(trace, o) == SetValueRun(answers, old(trace), safe)
    {
      var ok := Acquire();
      if ok {
        var _ := Invoke(false);
      }
      o := Write(SetValueRpc, safe);
    }

    method PutParamset(empty: bool, safe: bool) returns (o: Outcome)
      modifies this
      ensures Run(trace, o) == PutParamsetRun(answers, old(trace), empty, safe)
    {
      if empty {
        return OtherError;
      }
      o := Write(PutParamsetRpc, safe);
    }
  }

  // ---------------------------------------------------------------- what the resolver knows

  datatype Device = Device(address: string, iface: string, kind: string)

  /** device type -> channel index -> paramset key -> parameter -> raw type */
  type TypeCache = map<string, map<string, map<string, map<string, string>>>>

  function ColonAt(s: string): (k: nat)
    ensures k <= |s| && (k < |s| ==> s[k] == ':')
  {
    if s == "" || s[0] == ':' then 0 else 1 + ColonAt(s[1..])
  }

  function DeviceOf(address: string): string {
    address[..ColonAt(address)]
  }

  /** `split(":")[1] || "0"`. */
  function ChannelOf(address: string): string {
    var k := ColonAt(address);
    if k == |address| then "0"
    else
      var rest := address[k + 1..];
      var c := rest[..ColonAt(rest)];
      if c == "" then "0" else c
  }

  /** The raw type of a parameter as far as the two maps know it. */
  function RawParamType(
    types: Option<map<string, string>>, cache: TypeCache, address: string, valueKey: string, paramsetKey: string): Option<string>
  {
    var device, channel := DeviceOf(address), ChannelOf(address);
    if types == None || device !in types.value || types.value[device] == "" then None
    else
      var kind := types.value[device];
      if kind !in cache || channel !in cache[kind] || paramsetKey !in cache[kind][channel] then None
      else
        var params := cache[kind][channel][paramsetKey];
        if valueKey in params then Some(params[valueKey]) else None
  }

  /** `address` names this channel of this device: it reads device, colon, channel, and whatever follows a
      second colon; without a channel it names channel 0. */
  ghost predicate Names(address: string, device: string, channel: string) {
    && ':' !in device && ':' !in channel && channel != ""
    && (|| address == device + ":" + channel
        || device + ":" + channel + ":" <= address
        || (channel == "0" && (address == device || address == device + ":" || device + "::" <= address)))
  }

  lemma {:induction false} ColonFree(s: string, rest: string)
    requires ':' !in s && (rest == "" || rest[0] == ':')
    ensures ColonAt(s + rest) == |s|
    decreases |s|
  {
    if s == "" {
      assert s + rest == rest;
    } else {
      assert (s + rest)[1..] == s[1..] + rest;
      ColonFree(s[1..], rest);
    }
  }

  lemma {:induction false} NoColonBefore(s: string)
    ensures ':' !in s[..ColonAt(s)]
    decreases |s|
  {
    if s != "" && s[0] != ':' {
      NoColonBefore(s[1..]);
      assert s[..ColonAt(s)] == [s[0]] + s[1..][..ColonAt(s[1..])];
    }
  }

  /** The parts after the device, as `split` leaves them: nothing, or a colon and the rest. */
  lemma PartsOf(address: string, device: string, tail: string)
    requires ':' !in device && address == device + tail && (tail == "" || tail[0] == ':')
    ensures DeviceOf(address) == device
    ensures ChannelOf(address) == if tail == "" || ColonAt(tail[1..]) == 0 then "0" else tail[1..][..ColonAt(tail[1..])]
  {
    ColonFree(device, tail);
    if tail != "" { assert address[|device| + 1..] == tail[1..]; }
  }

  /** The two parts read off an address are the ones it names, and no others. */
  lemma AddressParts(address: string, device: string, channel: string)
    ensures Names(address, device, channel) <==> device == DeviceOf(address) && channel == ChannelOf(address)
  {
    OwnParts(address);
    if Names(address, device, channel) { NamedParts(address, device, channel); }
  }

  lemma OwnParts(address: string)
    ensures Names(address, DeviceOf(address), ChannelOf(address))
  {
    NoColonBefore(address);
    var k := ColonAt(address);
    if k < |address| {
      var rest := address[k + 1..];
      assert address == DeviceOf(address) + ":" + rest;
      RestNames(address, DeviceOf(address), rest);
    } else {
      assert address == DeviceOf(address);
    }
  }

  lemma RestNames(address: string, device: string, rest: string)
    requires ':' !in device && address == device + ":" + rest
    ensures Names(address, device, if ColonAt(rest) == 0 then "0" else rest[..ColonAt(rest)])
  {
    var c := rest[..ColonAt(rest)];
    NoColonBefore(rest);
    if rest == "" {
      assert address == device + ":";
    } else if c == "" {
      assert address == device + "::" + rest[1..];
    } else if c == rest {
      assert address == device + ":" + c;
    } else {
      assert rest == c + ":" + rest[|c| + 1..];
      assert address == device + ":" + c + ":" + rest[|c| + 1..];
    }
  }

  lemma NamedParts(address: string, device: string, channel: string)
    requires Names(address, device, channel)
    ensures device == DeviceOf(address) && channel == ChannelOf(address)
  {
    if device + ":" <= address {
      var tail := address[|device|..];
      assert address == device + tail && tail[0] == ':';
      PartsOf(address, device, tail);
      TailNames(address, device, channel, tail);
    } else {
      assert address == device + "";
      PartsOf(address, device, "");
    }
  }

  lemma SameTail(device: string, tail: string, other: string)
    requires device + tail == device + other
    ensures tail == other
  {
    assert (device + tail)[|device|..] == tail && (device + other)[|device|..] == other;
  }

  lemma TailNames(address: string, device: string, channel: string, tail: string)
    requires Names(address, device, channel) && address == device + tail && tail != "" && tail[0] == ':'
    ensures channel == if ColonAt(tail[1..]) == 0 then "0" else tail[1..][..ColonAt(tail[1..])]
  {
    if address == device + ":" + channel {
      assert address == device + (":" + channel + "");
      NamedChannel(device, channel, tail, "");
    } else if device + ":" + channel + ":" <= address {
      var more := address[|device| + 1 + |channel|..];
      assert address == device + (":" + channel + more);
      NamedChannel(device, channel, tail, more);
    } else if address == device + ":" {
      SameTail(device, tail, ":");
    } else {
      var more := address[|device| + 2..];
      assert address == device + ("::" + more);
      SameTail(device, tail, "::" + more);
    }
  }

  lemma NamedChannel(device: string, channel: string, tail: string, more: string)
    requires ':' !in channel && channel != "" && (more == "" || more[0] == ':')
    requires device + tail == device + (":" + channel + more)
    ensures tail != "" && ColonAt(tail[1..]) == |channel| && tail[1..][..|channel|] == channel
  {
    SameTail(device, tail, ":" + channel + more);
    assert tail[1..] == channel + more;
    ColonFree(channel, more);
  }

  /** The device has a type, and the cache of that type holds this parameter of this channel. */
  predicate Listed(
    types: Option<map<string, string>>, cache: TypeCache, device: string, channel: string, key: string, paramsetKey: string)
  {
    && types.Some? && device in types.value && types.value[device] != "" && types.value[device] in cache
    && channel in cache[types.value[device]] && paramsetKey in cache[types.value[device]][channel]
    && key in cache[types.value[device]][channel][paramsetKey]
  }

  function ListedType(
    types: Option<map<string, string>>, cache: TypeCache, device: string, channel: string, key: string, paramsetKey: string): string
    requires Listed(types, cache, device, channel, key, paramsetKey)
  {
    cache[types.value[device]][channel][paramsetKey][key]
  }

  /** It is listed there, and not as a trigger. */
  predicate ListedNoTrigger(
    types: Option<map<string, string>>, cache: TypeCache, device: string, channel: string, key: string, paramsetKey: string)
  {
    Listed(types, cache, device, channel, key, paramsetKey) && ListedType(types, cache, device, channel, key, paramsetKey) != "ACTION"
  }

  /** The raw type of a parameter is the one listed for the device and channel that its address names. */
  lemma RawTypeIsListed(
    types: Option<map<string, string>>, cache: TypeCache, address: string, device: string, channel: string,
    key: string, paramsetKey: string, ty: string)
    requires Names(address, device, channel)
    ensures RawParamType(types, cache, address, key, paramsetKey) == Some(ty) <==>
      Listed(types, cache, device, channel, key, paramsetKey) && ListedType(types, cache, device, channel, key, paramsetKey) == ty
  {
    NamedParts(address, device, channel);
  }

  /** So the retry decision reads the cache at the place that the address names. */
  lemma RepeatableIsListed(
    types: Option<map<string, string>>, cache: TypeCache, address: string, device: string, channel: string,
    key: string, paramsetKey: string)
    requires Names(address, device, channel)
    ensures KnownRepeatable(types, cache, address, key, paramsetKey) <==>
      ListedNoTrigger(types, cache, device, channel, key, paramsetKey)
  {
    if Listed(types, cache, device, channel, key, paramsetKey) {
      RawTypeIsListed(types, cache, address, device, channel, key, paramsetKey,
                      ListedType(types, cache, device, channel, key, paramsetKey));
    }
    if KnownRepeatable(types, cache, address, key, paramsetKey) {
      RawTypeIsListed(types, cache, address, device, channel, key, paramsetKey,
                      RawParamType(types, cache, address, key, paramsetKey).value);
    }
  }

  predicate KnownRepeatable(types: Option<map<string, string>>, cache: TypeCache, address: string, valueKey: string, paramsetKey: string) {
    var raw := RawParamType(types, cache, address, valueKey, paramsetKey);
    raw.Some? && raw.value != "ACTION"
  }

  predicate SafeToRetry(types: Option<map<string, string>>, cache: TypeCache, address: string, keys: seq<string>, paramsetKey: string) {
    paramsetKey == "MASTER" || forall i :: 0 <= i < |keys| ==> KnownRepeatable(types, cache, address, keys[i], paramsetKey)
  }

  /** The last device with this address. */
  function LastWith(devices: seq<Device>, address: string): Option<Device> {
    if devices == [] then None
    else if devices[|devices| - 1].address == address then Some(devices[|devices| - 1])
    else LastWith(devices[..|devices| - 1], address)
  }

  /** Device `i` has this address, and no device after it has. */
  ghost predicate LastAt(devices: seq<Device>, address: string, i: int) {
    && 0 <= i < |devices| && devices[i].address == address
    && forall j :: i < j < |devices| ==> devices[j].address != address
  }

  /** What counts for an address is the last device in the list that has it, if any has. */
  lemma {:induction false} LastWithMeans(devices: seq<Device>, address: string) returns (i: int)
    ensures LastWith(devices, address) == None ==> forall j :: 0 <= j < |devices| ==> devices[j].address != address
    ensures LastWith(devices, address).Some? ==>
      LastAt(devices, address, i) && LastWith(devices, address).value == devices[i]
    decreases |devices|
  {
    i := |devices| - 1;
    if devices != [] && devices[i].address != address {
      var init := devices[..i];
      i := LastWithMeans(init, address);
      assert forall j :: 0 <= j < |init| ==> devices[j] == init[j];
    }
  }

  class Resolver {
    var interfaceMap: Option<map<string, string>>
    var deviceTypeMap: Option<map<string, string>>

    constructor ()
      ensures interfaceMap == None && deviceTypeMap == None
    {
      interfaceMap, deviceTypeMap := None, None;
    }

    method UpdateDeviceList(devices: seq<Device>)
      modifies this
      ensures interfaceMap.Some? && deviceTypeMap.Some?
      ensures forall a :: (a in interfaceMap.value <==> LastWith(devices, a).Some?)
                       && (a in deviceTypeMap.value <==> LastWith(devices, a).Some?)
      ensures forall a :: LastWith(devices, a).Some? ==>
                       && interfaceMap.value[a] == LastWith(devices, a).value.iface
                       && deviceTypeMap.value[a] == LastWith(devices, a).value.kind
    {
      var ifaces, kinds: map<string, string> := map[], map[];
      for i := 0 to |devices|
        invariant forall a :: (a in ifaces <==> LastWith(devices[..i], a).Some?) && (a in kinds <==> LastWith(devices[..i], a).Some?)
        invariant forall a :: LastWith(devices[..i], a).Some? ==>
                    && ifaces[a] == LastWith(devices[..i], a).value.iface && kinds[a] == LastWith(devices[..i], a).value.kind
      {
        var d := devices[i];
        assert devices[..i + 1][..i] == devices[..i];
        ifaces := ifaces[d.address := d.iface];
        kinds := kinds[d.address := d.kind];
      }
      assert devices[..|devices|] == devices;
      interfaceMap, deviceTypeMap := Some(ifaces), Some(kinds);
    }
  }

  // ---------------------------------------------------------------- the claims

  predicate IsWrite(e: Ev) {
    e.Sent? && e.write
  }

  /** A write that may or may not have been carried out. */
  predicate Doubtful(e: Ev) {
    IsWrite(e) && Retriable(e.outcome)
  }

  ghost predicate ResendsDoubtful(t: seq<Ev>) {
    exists i, j :: 0 <= i < j < |t| && Doubtful(t[i]) && IsWrite(t[j])
  }

  function Writes(t: seq<Ev>): nat {
    if t == [] then 0 else Writes(t[..|t| - 1]) + (if IsWrite(t[|t| - 1]) then 1 else 0)
  }

  /** How often the write was invoked. */
  function Invocations(t: seq<Ev>): nat {
    if t == [] then 0 else Invocations(t[..|t| - 1]) + (if t[|t| - 1] == Invoked(true) then 1 else 0)
  }

  /** How many tokens were acquired for an invocation of the write that followed at once. */
  function WriteTokens(t: seq<Ev>): nat {
    if |t| < 2 then 0
    else WriteTokens(t[..|t| - 1]) + (if t[|t| - 2] == Acquired(true) && t[|t| - 1] == Invoked(true) then 1 else 0)
  }

  /** Every invocation of a write was paid for with a token of its own, acquired just before. */
  ghost predicate TokenEach(t: seq<Ev>) {
    forall j :: 0 <= j < |t| && t[j] == Invoked(true) ==> j > 0 && t[j - 1] == Acquired(true)
  }

  /** The same facts read off a trace in one pass. */
  datatype Summary = Summary(writes: nat, calls: nat, used: nat, doubtful: bool, resent: bool, paid: bool, tokened: bool)

  function Next(s: Summary, e: Ev): Summary {
    Summary(
      if IsWrite(e) then s.writes + 1 else s.writes,
      if e == Invoked(true) then s.calls + 1 else s.calls,
      if e == Invoked(true) && s.tokened then s.used + 1 else s.used,
      s.doubtful || Doubtful(e),
      s.resent || (s.doubtful && IsWrite(e)),
      s.paid && (e == Invoked(true) ==> s.tokened),
      e == Acquired(true))
  }

  function Scan(t: seq<Ev>): Summary {
    if t == [] then Summary(0, 0, 0, false, false, true, false) else Next(Scan(t[..|t| - 1]), t[|t| - 1])
  }

  lemma ScanAppend(t: seq<Ev>, e: Ev)
    ensures Scan(t + [e]) == Next(Scan(t), e)
  {
    assert (t + [e])[..|t|] == t;
  }

  ghost predicate InDoubt(t: seq<Ev>) {
    exists i :: 0 <= i < |t| && Doubtful(t[i])
  }

  lemma DoubtAppend(t: seq<Ev>, e: Ev)
    ensures InDoubt(t + [e]) <==> InDoubt(t) || Doubtful(e)
    ensures ResendsDoubtful(t + [e]) <==> ResendsDoubtful(t) || (InDoubt(t) && IsWrite(e))
  {
    var u := t + [e];
    assert u[|t|] == e;
    assert forall i :: 0 <= i < |t| ==> u[i] == t[i];
    if InDoubt(t) {
      var i :| 0 <= i < |t| && Doubtful(t[i]);
      assert Doubtful(u[i]);
    }
    if ResendsDoubtful(t) {
      var i, j :| 0 <= i < j < |t| && Doubtful(t[i]) && IsWrite(t[j]);
      assert Doubtful(u[i]) && IsWrite(u[j]);
    }
  }

  predicate EndsInToken(t: seq<Ev>) {
    t != [] && t[|t| - 1] == Acquired(true)
  }

  lemma TokenAppend(t: seq<Ev>, e: Ev)
    ensures TokenEach(t + [e]) <==> TokenEach(t) && (e == Invoked(true) ==> EndsInToken(t))
  {
    var u := t + [e];
    assert u[|t|] == e;
    assert forall i :: 0 <= i < |t| ==> u[i] == t[i];
  }

  lemma {:induction false} ScanMeans(t: seq<Ev>)
    ensures Scan(t).writes == Writes(t) && Scan(t).calls == Invocations(t) && Scan(t).used == WriteTokens(t)
    ensures Scan(t).doubtful <==> InDoubt(t)
    ensures Scan(t).resent <==> ResendsDoubtful(t)
    ensures Scan(t).paid <==> TokenEach(t)
    ensures Scan(t).tokened <==> EndsInToken(t)
    decreases |t|
  {
    if t != [] {
      var u, e := t[..|t| - 1], t[|t| - 1];
      assert t == u + [e];
      ScanMeans(u);
      DoubtAppend(u, e);
      TokenAppend(u, e);
    }
  }

  lemma ReloginBound(a: Oracle, t: seq<Ev>, write: bool)
    ensures var s, r := Scan(t), Scan(ReloginRun(a, t, write).trace);
      && r.writes <= s.writes + 1 && r.paid == s.paid && r.calls == s.calls && r.used == s.used
      && (!s.doubtful && !s.resent ==> !r.resent)
      && (!write ==> r.writes == s.writes && r.doubtful == s.doubtful && r.resent == s.resent)
  {
    var t1 := t + [LoggedIn(a(|t|).login)];
    ScanAppend(t, t1[|t|]);
    ScanAppend(t1, Sent(write, a(|t1|).outcome));
  }

  /** One `call` sends at most twice, the second time only after AUTH. */
  lemma SendBound(a: Oracle, t: seq<Ev>, write: bool)
    ensures var s, r := Scan(t), Scan(SendRun(a, t, write).trace);
      && r.writes <= s.writes + 2 && r.paid == s.paid && r.calls == s.calls && r.used == s.used
      && (!s.doubtful && !s.resent ==> !r.resent)
      && (!write ==> r.writes == s.writes && r.doubtful == s.doubtful && r.resent == s.resent)
  {
    var sent := Sent(write, a(|t|).outcome);
    ScanAppend(t, sent);
    ReloginBound(a, t + [sent], write);
  }

  /** The same for a whole call. */
  lemma CallBound(a: Oracle, t: seq<Ev>, write: bool)
    ensures var s, r := Scan(t), Scan(CallRun(a, t, write).trace);
      && r.writes <= s.writes + 2 && r.paid == s.paid && r.calls == s.calls && r.used == s.used
      && (!s.doubtful && !s.resent ==> !r.resent)
      && (!write ==> r.writes == s.writes && r.doubtful == s.doubtful && r.resent == s.resent)
  {
    if a(|t|).loggedIn {
      SendBound(a, t, write);
    } else {
      var l := a(|t|).login;
      ScanAppend(t, LoggedIn(l));
      SendBound(a, t + [LoggedIn(l)], write);
    }
  }

  /** An invoked write stays paid for if a token was acquired just before. */
  lemma InvokeBound(a: Oracle, t: seq<Ev>, write: bool)
    ensures var s, r := Scan(t), Scan(InvokeRun(a, t, write).trace);
      && r.writes <= s.writes + 2
      && r.calls == s.calls + (if write then 1 else 0) && r.used == s.used + (if write && s.tokened then 1 else 0)
      && r.paid == (s.paid && (write ==> s.tokened))
      && (!s.doubtful && !s.resent ==> !r.resent)
      && (!write ==> r.writes == s.writes && r.doubtful == s.doubtful && r.resent == s.resent)
  {
    ScanAppend(t, Invoked(write));
    CallBound(a, t + [Invoked(write)], write);
    var c := CallRun(a, t + [Invoked(write)], write);
    ScanAppend(c.trace, Returned(write, c.result));
  }

  lemma PauseBound(t: seq<Ev>, ok: bool)
    ensures var s, r := Scan(t), Scan(t + [Slept] + [Acquired(ok)]);
      r.writes == s.writes && r.calls == s.calls && r.used == s.used && r.paid == s.paid && (ok ==> r.tokened)
  {
    ScanAppend(t, Slept);
    ScanAppend(t + [Slept], Acquired(ok));
  }

  lemma {:induction false} AttemptsBound(a: Oracle, t: seq<Ev>, attempt: nat, maxRetries: nat)
    requires attempt <= maxRetries && Scan(t).tokened && Scan(t).paid
    ensures var r := Scan(Attempts(a, t, true, attempt, maxRetries, true).trace);
      && r.paid && r.used <= Scan(t).used + (maxRetries - attempt + 1)
      && r.writes - Scan(t).writes <= 2 * (r.used - Scan(t).used) && r.calls - Scan(t).calls == r.used - Scan(t).used
    decreases maxRetries - attempt
  {
    var c := InvokeRun(a, t, true);
    InvokeBound(a, t, true);
    if attempt < maxRetries && Retriable(c.result) {
      var t1 := c.trace + [Slept];
      PauseBound(c.trace, a(|t1|).acquired);
      if a(|t1|).acquired {
        AttemptsBound(a, t1 + [Acquired(true)], attempt + 1, maxRetries);
        assert Attempts(a, t, true, attempt, maxRetries, true)
            == Attempts(a, t1 + [Acquired(true)], true, attempt + 1, maxRetries, true);
      } else {
        assert Attempts(a, t, true, attempt, maxRetries, true).trace == t1 + [Acquired(false)];
      }
    } else {
      assert Attempts(a, t, true, attempt, maxRetries, true) == c;
    }
  }

  /** What holds of every write tool: `t` is its trace up to the write. */
  lemma WriteBound(a: Oracle, t: seq<Ev>, m: Rpc, safe: bool)
    requires !Scan(t).doubtful && !Scan(t).resent && Scan(t).paid && !NonIdempotent(m)
    ensures var s, r := Scan(t), Scan(WriteRun(a, t, m, safe).trace);
      && r.paid && r.used <= s.used + (if safe then MAX_RETRIES + 1 else 1)
      && r.writes - s.writes <= 2 * (r.used - s.used) && r.calls - s.calls == r.used - s.used
      && (r.resent ==> safe)
  {
    var t1 := t + [Acquired(a(|t|).acquired)];
    ScanAppend(t, t1[|t|]);
    if a(|t|).acquired {
      InvokeBound(a, t1, true);
      AttemptsBound(a, t1, 0, MAX_RETRIES);
    }
  }

  /** The other half: with a CCU that always times out, a safe write is sent again. */
  function AlwaysTimeout(): Oracle {
    (n: nat) => Answer(true, Timeout, NoSession, true)
  }

  lemma SafeIsResent(t: seq<Ev>, m: Rpc)
    requires !NonIdempotent(m)
    ensures Scan(WriteRun(AlwaysTimeout(), t, m, true).trace).resent
  {
    var a := AlwaysTimeout();
    var t1 := t + [Acquired(true)];
    var t2 := t1 + TimedOut();
    var t3 := t2 + [Slept] + [Acquired(true)];
    TimedOutAt(t1);
    TimedOutAt(t3);
    assert Attempts(a, t3, true, 1, MAX_RETRIES, true).trace == t3 + TimedOut();
    assert WriteRun(a, t, m, true).trace == t3 + TimedOut();
    ScanAppend(t2, Slept);
    ScanAppend(t2 + [Slept], Acquired(true));
  }

  function TimedOut(): seq<Ev> {
    [Invoked(true), Sent(true, Timeout), Returned(true, Timeout)]
  }

  lemma TimedOutAt(t: seq<Ev>)
    ensures InvokeRun(AlwaysTimeout(), t, true) == Run(t + TimedOut(), Timeout)
    ensures Scan(t + TimedOut()).doubtful && (Scan(t).doubtful ==> Scan(t + TimedOut()).resent)
  {
    var t1 := t + [Invoked(true)];
    var t2 := t1 + [Sent(true, Timeout)];
    assert t2 + [Returned(true, Timeout)] == t + TimedOut();
    ScanAppend(t, Invoked(true));
    ScanAppend(t1, Sent(true, Timeout));
    ScanAppend(t2, Returned(true, Timeout));
  }

  /** Each invocation has its token, and none sends more than two requests. */
  ghost predicate PaidFor(t: seq<Ev>, attempts: nat) {
    TokenEach(t) && Invocations(t) == WriteTokens(t) <= attempts && Writes(t) <= 2 * WriteTokens(t)
  }

  /** set_value: a write in doubt is repeated only if the datapoint is known not to be a trigger. Every
      invocation of the write has a token of its own, there are at most two, and with the second
      request after AUTH each sends at most two. */
  lemma SetValueResendsSafely(
    a: Oracle, types: Option<map<string, string>>, cache: TypeCache, address: string, valueKey: string, device: string, channel: string)
    requires Names(address, device, channel)
    ensures var t := SetValueRun(a, [], KnownRepeatable(types, cache, address, valueKey, "VALUES")).trace;
      && (ResendsDoubtful(t) ==> ListedNoTrigger(types, cache, device, channel, valueKey, "VALUES"))
      && PaidFor(t, if ListedNoTrigger(types, cache, device, channel, valueKey, "VALUES") then 2 else 1)
  {
    RepeatableIsListed(types, cache, address, device, channel, valueKey, "VALUES");
    var safe := KnownRepeatable(types, cache, address, valueKey, "VALUES");
    var ok := a(0).acquired;
    var t0: seq<Ev> := [Acquired(ok)];
    assert [] + [Acquired(ok)] == t0;
    ScanAppend([], Acquired(ok));
    if ok { InvokeBound(a, t0, false); }
    var t1 := if ok then InvokeRun(a, t0, false).trace else t0;
    WriteBound(a, t1, SetValueRpc, safe);
    ScanMeans(SetValueRun(a, [], safe).trace);
  }

  /** A MASTER write, or one in which every key is listed and none as a trigger. */
  ghost predicate AllRepeatable(
    types: Option<map<string, string>>, cache: TypeCache, device: string, channel: string, keys: seq<string>, paramsetKey: string)
  {
    paramsetKey == "MASTER" || forall key :: key in keys ==> ListedNoTrigger(types, cache, device, channel, key, paramsetKey)
  }

  lemma SafeIsAllRepeatable(
    types: Option<map<string, string>>, cache: TypeCache, address: string, keys: seq<string>, paramsetKey: string,
    device: string, channel: string)
    requires Names(address, device, channel)
    ensures SafeToRetry(types, cache, address, keys, paramsetKey) <==>
      AllRepeatable(types, cache, device, channel, keys, paramsetKey)
  {
    forall i | 0 <= i < |keys|
      ensures KnownRepeatable(types, cache, address, keys[i], paramsetKey) <==>
        ListedNoTrigger(types, cache, device, channel, keys[i], paramsetKey)
    {
      RepeatableIsListed(types, cache, address, device, channel, keys[i], paramsetKey);
    }
  }

  /** put_paramset: the same, for MASTER or when every written key is known not to be a trigger. */
  lemma PutParamsetResendsSafely(
    a: Oracle, types: Option<map<string, string>>, cache: TypeCache, address: string, keys: seq<string>, paramsetKey: string,
    device: string, channel: string)
    requires Names(address, device, channel)
    ensures var t := PutParamsetRun(a, [], keys == [], SafeToRetry(types, cache, address, keys, paramsetKey)).trace;
      && (ResendsDoubtful(t) ==> AllRepeatable(types, cache, device, channel, keys, paramsetKey))
      && PaidFor(t, if AllRepeatable(types, cache, device, channel, keys, paramsetKey) then 2 else 1)
      && (keys == [] ==> t == [])
  {
    SafeIsAllRepeatable(types, cache, address, keys, paramsetKey, device, channel);
    var safe := SafeToRetry(types, cache, address, keys, paramsetKey);
    if keys != [] {
      WriteBound(a, [], PutParamsetRpc, safe);
    }
    ScanMeans(PutParamsetRun(a, [], keys == [], safe).trace);
  }

  ghost predicate SetValueRepeats(a: Oracle, safe: bool) {
    ResendsDoubtful(SetValueRun(a, [], safe).trace)
  }

  ghost predicate PutParamsetRepeats(a: Oracle, empty: bool, safe: bool) {
    ResendsDoubtful(PutParamsetRun(a, [], empty, safe).trace)
  }

  /** Some behaviour of the CCU makes set_value repeat a write in doubt. */
  ghost predicate SetValueMayRepeat(safe: bool) {
    exists a: Oracle :: SetValueRepeats(a, safe)
  }

  ghost predicate PutParamsetMayRepeat(empty: bool, safe: bool) {
    exists a: Oracle :: PutParamsetRepeats(a, empty, safe)
  }

  /** Both halves at once: some behaviour of the CCU makes the tool repeat a write in doubt if and only if
      what is written is listed for the device and channel that the address names, and not as a trigger. */
  lemma RetryDecisionIsExact(
    types: Option<map<string, string>>, cache: TypeCache, address: string, valueKey: string, keys: seq<string>, paramsetKey: string,
    device: string, channel: string)
    requires Names(address, device, channel)
    ensures SetValueMayRepeat(KnownRepeatable(types, cache, address, valueKey, "VALUES")) <==>
              ListedNoTrigger(types, cache, device, channel, valueKey, "VALUES")
    ensures PutParamsetMayRepeat(keys == [], SafeToRetry(types, cache, address, keys, paramsetKey)) <==>
              keys != [] && AllRepeatable(types, cache, device, channel, keys, paramsetKey)
  {
    RepeatableIsListed(types, cache, address, device, channel, valueKey, "VALUES");
    SafeIsAllRepeatable(types, cache, address, keys, paramsetKey, device, channel);
    DecisionIsExact(KnownRepeatable(types, cache, address, valueKey, "VALUES"));
    DecisionIsExact(SafeToRetry(types, cache, address, keys, paramsetKey));
  }

  lemma DecisionIsExact(safe: bool)
    ensures SetValueMayRepeat(safe) <==> safe
    ensures PutParamsetMayRepeat(false, safe) <==> safe
    ensures !PutParamsetMayRepeat(true, safe)
  {
    if safe {
      var a := AlwaysTimeout();
      var t1 := InvokeRun(a, [] + [Acquired(true)], false).trace;
      SafeIsResent(t1, SetValueRpc);
      SafeIsResent([], PutParamsetRpc);
      ScanMeans(SetValueRun(a, [], safe).trace);
      ScanMeans(PutParamsetRun(a, [], false, safe).trace);
      assert SetValueRepeats(a, safe) && PutParamsetRepeats(a, false, safe);
    }
    forall a: Oracle ensures SetValueRepeats(a, safe) ==> safe {
      UnsafeNeverResends(a, safe);
    }
    forall a: Oracle ensures PutParamsetRepeats(a, false, safe) ==> safe {
      UnsafeNeverResends(a, safe);
    }
  }

  lemma UnsafeNeverResends(a: Oracle, safe: bool)
    ensures ResendsDoubtful(SetValueRun(a, [], safe).trace) ==> safe
    ensures ResendsDoubtful(PutParamsetRun(a, [], false, safe).trace) ==> safe
  {
    var ok := a(0).acquired;
    var t0: seq<Ev> := [] + [Acquired(ok)];
    ScanAppend([], Acquired(ok));
    if ok { InvokeBound(a, t0, false); }
    var t1 := if ok then InvokeRun(a, t0, false).trace else t0;
    WriteBound(a, t1, SetValueRpc, safe);
    WriteBound(a, [], PutParamsetRpc, safe);
    ScanMeans(SetValueRun(a, [], safe).trace);
    ScanMeans(PutParamsetRun(a, [], false, safe).trace);
  }

  /** A CCU that refuses every first request, hands out a new session, and times out on the second. */
  function RefusesFirst(): Oracle {
    (n: nat) => Answer(true, if n % 7 == 2 then AuthError else Timeout, NewSession, true)
  }

  /** The requests of one invocation at such a CCU. */
  function TwoSends(): seq<Ev> {
    [Invoked(true), Sent(true, AuthError), LoggedIn(NewSession), Sent(true, Timeout), Returned(true, Timeout)]
  }

  lemma TwoSendsAt(t: seq<Ev>)
    requires |t| % 7 == 1
    ensures InvokeRun(RefusesFirst(), t, true) == Run(t + TwoSends(), Timeout)
  {
    var a := RefusesFirst();
    var t1 := t + [Invoked(true)];
    var t2 := t1 + [Sent(true, AuthError)];
    var t3 := t2 + [LoggedIn(NewSession)];
    assert a(|t1|).outcome == AuthError && a(|t3|).outcome == Timeout;
    assert t3 + [Sent(true, Timeout)] + [Returned(true, Timeout)] == t + TwoSends();
  }

  /** The bound is reached: one token for two requests, and two tokens for four. */
  lemma TwoRequestsPerToken()
    ensures PutParamsetRun(RefusesFirst(), [], false, false).trace == [Acquired(true)] + TwoSends()
    ensures PutParamsetRun(RefusesFirst(), [], false, true).trace ==
              [Acquired(true)] + TwoSends() + [Slept, Acquired(true)] + TwoSends()
    ensures Writes([Acquired(true)] + TwoSends()) == 2 && WriteTokens([Acquired(true)] + TwoSends()) == 1
  {
    var a := RefusesFirst();
    var t0: seq<Ev> := [] + [Acquired(true)];
    TwoSendsAt(t0);
    var t1 := t0 + TwoSends();
    var t2 := t1 + [Slept] + [Acquired(true)];
    TwoSendsAt(t2);
    assert t2 == t1 + [Slept, Acquired(true)];
    assert Attempts(a, t2, true, 1, MAX_RETRIES, true) == InvokeRun(a, t2, true);
    TwoSendsScan(t0);
    ScanAppend([], Acquired(true));
    ScanMeans(t1);
  }

  lemma ScanAppendTwo(t: seq<Ev>, e: Ev, f: Ev)
    ensures Scan(t + [e, f]) == Next(Next(Scan(t), e), f)
  {
    ScanAppend(t, e);
    ScanAppend(t + [e], f);
    assert t + [e, f] == t + [e] + [f];
  }

  lemma TwoSendsScan(t: seq<Ev>)
    ensures var s, r := Scan(t), Scan(t + TwoSends());
      r.writes == s.writes + 2 && r.used == if s.tokened then s.used + 1 else s.used
  {
    var t2 := t + [Invoked(true), Sent(true, AuthError)];
    var t4 := t2 + [LoggedIn(NewSession), Sent(true, Timeout)];
    ScanAppendTwo(t, Invoked(true), Sent(true, AuthError));
    ScanAppendTwo(t2, LoggedIn(NewSession), Sent(true, Timeout));
    ScanAppend(t4, Returned(true, Timeout));
    assert t + TwoSends() == t4 + [Returned(true, Timeout)];
  }

  /** Scripts and program runs are invoked exactly once, whatever happens. */
  lemma NonIdempotentOnce(a: Oracle, m: Rpc, maxRetries: nat, limited: bool)
    requires NonIdempotent(m)
    ensures var t := WithRetryRun(a, [], m, true, maxRetries, limited).trace;
      Invocations(t) == 1 && !ResendsDoubtful(t) && Writes(t) <= 2
  {
    InvokeBound(a, [], true);
    ScanMeans(WithRetryRun(a, [], m, true, maxRetries, limited).trace);
  }
}
