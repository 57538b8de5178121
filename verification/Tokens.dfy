/** Devices and their tokens: sign-in rotates a machine's pair of tokens, revocation ends them
    (src/auth/tokens.py). Each transaction is one step; tokens are known by their hashes. */
module Tokens {
  import opened Basics

  datatype Kind = Cli | Ingest | Web

  /** A device row; its id is its position. */
  datatype Device = Device(
    userId: string, installation: string, name: string, version: Option<string>, commit: Option<string>,
    createdAt: int, lastSeenAt: int, revokedAt: Option<int>)

  datatype Token = Token(
    userId: string, deviceId: Option<nat>, kind: Kind, hash: string, createdAt: int,
    revokedAt: Option<int>)

  predicate IsLive(t: Token) { t.revokedAt.None? }

  /** One approved sign-in of a machine. */
  datatype SignIn = SignIn(
    userId: string, installation: string, name: string, version: Option<string>, commit: Option<string>)

  /** The two fresh secrets of an attempt, as hashes. */
  datatype Pair = Pair(cli: string, ingest: string)

  /** `latest[d]` is where the token pair of device `d`'s latest sign-in starts. */
  datatype Tables = Tables(devices: seq<Device>, tokens: seq<Token>, latest: seq<nat>)

  const NO_TABLES := Tables([], [], [])

  /** The other transactions on these tables. */
  datatype Op =
    | Exchange(signIn: SignIn, pair: Pair, at: int)
    | RevokeDevice(device: nat, user: string, at: int)
    | RevokeToken(token: nat, user: string, at: int)
    | MintPlain(user: string, kind: Kind, hash: string, at: int)

  function DeviceOf(devices: seq<Device>, userId: string, installation: string): (r: Option<nat>)
    ensures r.Some? ==>
      r.value < |devices| && devices[r.value].userId == userId && devices[r.value].installation == installation
    ensures r.None? ==> forall d :: 0 <= d < |devices| ==>
      !(devices[d].userId == userId && devices[d].installation == installation)
  {
    if devices == [] then None
    else
      var last := |devices| - 1;
      if devices[last].userId == userId && devices[last].installation == installation then Some(last)
      else DeviceOf(devices[..last], userId, installation)
  }

  predicate HashKnown(tokens: seq<Token>, hash: string) { exists i :: 0 <= i < |tokens| && tokens[i].hash == hash }

  predicate IsFresh(tokens: seq<Token>, p: Pair) {
    p.cli != p.ingest && !HashKnown(tokens, p.cli) && !HashKnown(tokens, p.ingest)
  }

  // ---------------------------------------------------------------- the transactions

  /** `UPDATE auth_tokens SET revoked_at ... WHERE device_id ... AND revoked_at IS NULL`. */
  function Revoked(tokens: seq<Token>, device: nat, user: string, at: int): (r: seq<Token>)
    ensures |r| == |tokens|
    ensures forall i :: 0 <= i < |tokens| ==> r[i] == RevokedIf(tokens[i], device, user, at)
  {
    if tokens == [] then []
    else Revoked(tokens[..|tokens| - 1], device, user, at) + [RevokedIf(tokens[|tokens| - 1], device, user, at)]
  }

  function RevokedIf(t: Token, device: nat, user: string, at: int): Token {
    if t.deviceId == Some(device) && t.userId == user && IsLive(t) then t.(revokedAt := Some(at)) else t
  }

  /** A sign-in of a known device: it comes back from revocation, and its old pair is revoked. */
  function Returning(d: Device, s: SignIn, at: int): Device {
    d.(name := s.name, revokedAt := None, lastSeenAt := at,
       version := if s.version.Some? then s.version else d.version,
       commit := if s.commit.Some? then s.commit else d.commit)
  }

  function Minted(t: Tables, device: nat, user: string, p: Pair, at: int): Tables
    requires device < |t.latest|
  {
    Tables(t.devices,
           Revoked(t.tokens, device, user, at) +
           [Token(user, Some(device), Cli, p.cli, at, None), Token(user, Some(device), Ingest, p.ingest, at, None)],
           t.latest[device := |t.tokens|])
  }

  /** `mint_device_tokens`, when nothing collides. */
  function SignedIn(t: Tables, s: SignIn, p: Pair, at: int): Tables
    requires |t.latest| == |t.devices|
  {
    var found := DeviceOf(t.devices, s.userId, s.installation);
    if found.Some? then
      Minted(t.(devices := t.devices[found.value := Returning(t.devices[found.value], s, at)]), found.value, s.userId,
        p, at)
    else
      var d := Device(s.userId, s.installation, s.name, s.version, s.commit, at, at, None);
      Minted(Tables(t.devices + [d], t.tokens, t.latest + [0]), |t.devices|, s.userId, p, at)
  }

  function DeviceRevoked(t: Tables, device: nat, user: string, at: int): Tables {
    if device < |t.devices| && t.devices[device].userId == user && t.devices[device].revokedAt.None? then
      t.(devices := t.devices[device := t.devices[device].(revokedAt := Some(at))],
         tokens := Revoked(t.tokens, device, user, at))
    else t
  }

  function TokenRevoked(t: Tables, token: nat, user: string, at: int): Tables {
    if token < |t.tokens| && t.tokens[token].userId == user && IsLive(t.tokens[token])
    then t.(tokens := t.tokens[token := t.tokens[token].(revokedAt := Some(at))])
    else t
  }

  /** A transaction that meets a used secret fails on the unique index and changes nothing. */
  function After(t: Tables, op: Op): Tables
    requires |t.latest| == |t.devices|
  {
    match op
    case Exchange(s, p, at) => if IsFresh(t.tokens, p) then SignedIn(t, s, p, at) else t
    case RevokeDevice(d, user, at) => DeviceRevoked(t, d, user, at)
    case RevokeToken(i, user, at) => TokenRevoked(t, i, user, at)
    case MintPlain(user, kind, hash, at) =>
      if HashKnown(t.tokens, hash) then t else t.(tokens := t.tokens + [Token(user, None, kind, hash, at, None)])
  }

  function AfterAll(t: Tables, ops: seq<Op>): (r: Tables)
    requires |t.latest| == |t.devices|
    ensures |r.latest| == |r.devices|
  {
    if ops == [] then t else After(AfterAll(t, ops[..|ops| - 1]), ops[|ops| - 1])
  }

  // ---------------------------------------------------------------- what every transaction keeps

  predicate PairAt(t: Tables, d: nat)
    requires d < |t.latest| && d < |t.devices|
  {
    var n := t.latest[d];
    n + 1 < |t.tokens| &&
    t.tokens[n].deviceId == Some(d) && t.tokens[n].kind == Cli && t.tokens[n + 1].deviceId == Some(d) &&
      t.tokens[n + 1].kind == Ingest
  }

  /** A live token of a device belongs to the pair of its latest sign-in, and the device is not revoked. */
  predicate TokenOk(t: Tables, i: nat)
    requires i < |t.tokens| && |t.latest| == |t.devices|
  {
    var k := t.tokens[i];
    k.deviceId.Some? ==>
      k.deviceId.value < |t.devices| && k.userId == t.devices[k.deviceId.value].userId && k.kind != Web &&
      i <= t.latest[k.deviceId.value] + 1 &&
      (IsLive(k) ==> t.devices[k.deviceId.value].revokedAt.None? && t.latest[k.deviceId.value] <= i)
  }

  ghost predicate Valid(t: Tables) {
    |t.latest| == |t.devices| &&
    (forall d :: 0 <= d < |t.devices| ==> PairAt(t, d)) &&
    (forall i :: 0 <= i < |t.tokens| ==> TokenOk(t, i)) &&
    (forall i, j :: 0 <= i < j < |t.tokens| ==> t.tokens[i].hash != t.tokens[j].hash) &&
    forall c, d :: 0 <= c < d < |t.devices| ==>
      !(t.devices[c].userId == t.devices[d].userId && t.devices[c].installation == t.devices[d].installation)
  }

  lemma MintedIsValid(t: Tables, d: nat, p: Pair, at: int)
    requires |t.latest| == |t.devices| && d < |t.devices| && IsFresh(t.tokens, p) && t.devices[d].revokedAt.None?
    requires forall c :: 0 <= c < |t.devices| && c != d ==> PairAt(t, c)
    requires forall i :: 0 <= i < |t.tokens| && t.tokens[i].deviceId != Some(d) ==> TokenOk(t, i)
    requires forall i :: 0 <= i < |t.tokens| && t.tokens[i].deviceId == Some(d) ==>
      t.tokens[i].userId == t.devices[d].userId && t.tokens[i].kind != Web
    requires forall i, j :: 0 <= i < j < |t.tokens| ==> t.tokens[i].hash != t.tokens[j].hash
    requires forall c, e :: 0 <= c < e < |t.devices| ==>
      !(t.devices[c].userId == t.devices[e].userId && t.devices[c].installation == t.devices[e].installation)
    ensures Valid(Minted(t, d, t.devices[d].userId, p, at))
  {
    var user := t.devices[d].userId;
    var t' := Minted(t, d, user, p, at);
    var n := |t.tokens|;
    forall i | 0 <= i < |t'.tokens| ensures TokenOk(t', i) {
      if i < n { assert t'.tokens[i] == RevokedIf(t.tokens[i], d, user, at); }
    }
    forall c | 0 <= c < |t'.devices| ensures PairAt(t', c) {
      if c != d {
        assert PairAt(t, c);
        assert t'.tokens[t.latest[c]] == RevokedIf(t.tokens[t.latest[c]], d, user, at);
        assert t'.tokens[t.latest[c] + 1] == RevokedIf(t.tokens[t.latest[c] + 1], d, user, at);
      }
    }
    forall i, j | 0 <= i < j < |t'.tokens| ensures t'.tokens[i].hash != t'.tokens[j].hash {
      if i < n {
        assert t'.tokens[i].hash == t.tokens[i].hash;
        assert HashKnown(t.tokens, t.tokens[i].hash);
      }
    }
  }

  lemma SignInKeepsValid(t: Tables, s: SignIn, p: Pair, at: int)
    requires Valid(t) && IsFresh(t.tokens, p)
    ensures Valid(SignedIn(t, s, p, at))
  {
    var found := DeviceOf(t.devices, s.userId, s.installation);
    if found.Some? {
      var d := found.value;
      var t' := t.(devices := t.devices[d := Returning(t.devices[d], s, at)]);
      forall i | 0 <= i < |t.tokens| && t.tokens[i].deviceId != Some(d) ensures TokenOk(t', i) { assert TokenOk(t, i); }
      forall i | 0 <= i < |t.tokens| && t.tokens[i].deviceId == Some(d)
        ensures t.tokens[i].userId == t'.devices[d].userId && t.tokens[i].kind != Web { assert TokenOk(t, i); }
      forall c | 0 <= c < |t'.devices| && c != d ensures PairAt(t', c) { assert PairAt(t, c); }
      MintedIsValid(t', d, p, at);
    } else {
      var d := Device(s.userId, s.installation, s.name, s.version, s.commit, at, at, None);
      var t' := Tables(t.devices + [d], t.tokens, t.latest + [0]);
      forall i | 0 <= i < |t.tokens|
        ensures TokenOk(t', i) && t.tokens[i].deviceId != Some(|t.devices|)
      {
        assert TokenOk(t, i);
      }
      forall c | 0 <= c < |t.devices| ensures PairAt(t', c) { assert PairAt(t, c); }
      MintedIsValid(t', |t.devices|, p, at);
    }
  }

  lemma DeviceRevocationKeepsValid(t: Tables, id: nat, user: string, at: int)
    requires Valid(t)
    ensures Valid(DeviceRevoked(t, id, user, at))
  {
    var t' := DeviceRevoked(t, id, user, at);
    if t' != t {
      forall i | 0 <= i < |t.tokens| ensures TokenOk(t', i) {
        assert TokenOk(t, i) && t'.tokens[i] == RevokedIf(t.tokens[i], id, user, at);
      }
      forall d | 0 <= d < |t.devices| ensures PairAt(t', d) {
        assert PairAt(t, d);
        assert t'.tokens[t.latest[d]] == RevokedIf(t.tokens[t.latest[d]], id, user, at);
        assert t'.tokens[t.latest[d] + 1] == RevokedIf(t.tokens[t.latest[d] + 1], id, user, at);
      }
      forall i, j | 0 <= i < j < |t.tokens| ensures t'.tokens[i].hash != t'.tokens[j].hash {
        assert t'.tokens[i].hash == t.tokens[i].hash && t'.tokens[j].hash == t.tokens[j].hash;
      }
    }
  }

  lemma TokenRevocationKeepsValid(t: Tables, id: nat, user: string, at: int)
    requires Valid(t)
    ensures Valid(TokenRevoked(t, id, user, at))
  {
    var t' := TokenRevoked(t, id, user, at);
    forall i | 0 <= i < |t.tokens| ensures TokenOk(t', i) { assert TokenOk(t, i); }
    forall d | 0 <= d < |t.devices| ensures PairAt(t', d) { assert PairAt(t, d); }
  }

  lemma MintPlainKeepsValid(t: Tables, k: Token)
    requires Valid(t) && k.deviceId.None? && !HashKnown(t.tokens, k.hash)
    ensures Valid(t.(tokens := t.tokens + [k]))
  {
    var t' := t.(tokens := t.tokens + [k]);
    forall i | 0 <= i < |t'.tokens| ensures TokenOk(t', i) { if i < |t.tokens| { assert TokenOk(t, i); } }
    forall d | 0 <= d < |t.devices| ensures PairAt(t', d) { assert PairAt(t, d); }
    forall i | 0 <= i < |t.tokens| ensures t.tokens[i].hash != k.hash { assert HashKnown(t.tokens, t.tokens[i].hash); }
  }

  /** Any run of sign-ins, revocations and plain mints keeps the invariant. */
  lemma {:induction false} EveryRunIsSafe(t: Tables, ops: seq<Op>)
    requires Valid(t)
    ensures Valid(AfterAll(t, ops))
    decreases |ops|
  {
    if ops != [] {
      EveryRunIsSafe(t, ops[..|ops| - 1]);
      var before := AfterAll(t, ops[..|ops| - 1]);
      match ops[|ops| - 1]
      case Exchange(s, p, at) => if IsFresh(before.tokens, p) { SignInKeepsValid(before, s, p, at); }
      case RevokeDevice(d, user, at) => DeviceRevocationKeepsValid(before, d, user, at);
      case RevokeToken(i, user, at) => TokenRevocationKeepsValid(before, i, user, at);
      case MintPlain(user, kind, hash, at) =>
        if !HashKnown(before.tokens, hash) { MintPlainKeepsValid(before, Token(user, None, kind, hash, at, None)); }
    }
  }

  /** The live tokens of a device. */
  function LiveOf(t: Tables, d: nat, kind: Kind): set<nat> {
    set i: nat | i < |t.tokens| && t.tokens[i].deviceId == Some(d) && t.tokens[i].kind == kind && IsLive(t.tokens[i])
  }

  lemma LiveTokenIsLatest(t: Tables, i: nat, d: nat)
    requires Valid(t) && i < |t.tokens| && t.tokens[i].deviceId == Some(d) && IsLive(t.tokens[i])
    ensures d < |t.devices| && t.devices[d].revokedAt.None?
    ensures (i == t.latest[d] && t.tokens[i].kind == Cli) || (i == t.latest[d] + 1 && t.tokens[i].kind == Ingest)
  {
    assert TokenOk(t, i);
    assert PairAt(t, d);
  }

  /** In every reachable state a device has at most one live CLI and one live ingest token, both from its
      latest sign-in, no others, and none at all while it is revoked. */
  lemma LiveTokensAreTheLatest(ops: seq<Op>, d: nat)
    ensures var t := AfterAll(NO_TABLES, ops);
      d < |t.devices| ==>
        LiveOf(t, d, Cli) <= {t.latest[d]} && LiveOf(t, d, Ingest) <= {t.latest[d] + 1} && LiveOf(t, d, Web) == {} &&
        (t.devices[d].revokedAt.Some? ==> LiveOf(t, d, Cli) == {} && LiveOf(t, d, Ingest) == {})
  {
    EveryRunIsSafe(NO_TABLES, ops);
    var t := AfterAll(NO_TABLES, ops);
    forall i, kind | i in LiveOf(t, d, kind)
      ensures d < |t.devices| && t.devices[d].revokedAt.None?
      ensures (i == t.latest[d] && kind == Cli) || (i == t.latest[d] + 1 && kind == Ingest)
    {
      LiveTokenIsLatest(t, i, d);
    }
  }

  // ---------------------------------------------------------------- what the transactions are for

  /** The token is revoked at `at` in `now`, and is otherwise as it was. */
  predicate IsRevokedAt(was: Token, now: Token, at: int) {
    now.revokedAt == Some(at) && now.userId == was.userId && now.deviceId == was.deviceId && now.kind == was.kind &&
    now.hash == was.hash && now.createdAt == was.createdAt
  }

  /** Of the tokens there were, exactly the live ones of the device are revoked now. */
  predicate EndsTokensOf(was: seq<Token>, now: seq<Token>, device: nat, at: int) {
    |was| <= |now| && forall i :: 0 <= i < |was| ==>
      if was[i].deviceId == Some(device) && was[i].revokedAt == None then IsRevokedAt(was[i], now[i], at)
      else now[i] == was[i]
  }

  /** After a sign-in the machine is there and not revoked, its new pair of tokens is live, its old tokens are revoked,
      and nothing of any other machine or token has changed. */
  predicate IsSignedIn(was: Tables, now: Tables, s: SignIn, p: Pair, at: int, d: nat) {
    d < |now.devices| && |was.devices| <= |now.devices| <= |was.devices| + 1 &&
    now.devices[d].userId == s.userId && now.devices[d].installation == s.installation &&
    now.devices[d].name == s.name && now.devices[d].revokedAt == None && now.devices[d].lastSeenAt == at &&
    (if d < |was.devices| then
       |now.devices| == |was.devices| &&
       now.devices[d].createdAt == was.devices[d].createdAt &&
       now.devices[d].version == (if s.version == None then was.devices[d].version else s.version) &&
       now.devices[d].commit == (if s.commit == None then was.devices[d].commit else s.commit)
     else
       d == |was.devices| && now.devices[d].createdAt == at && now.devices[d].version == s.version &&
       now.devices[d].commit == s.commit) &&
    (forall c :: 0 <= c < |was.devices| && c != d ==> now.devices[c] == was.devices[c]) &&
    |now.tokens| == |was.tokens| + 2 && EndsTokensOf(was.tokens, now.tokens, d, at) &&
    now.tokens[|was.tokens|..] ==
      [Token(s.userId, Some(d), Cli, p.cli, at, None), Token(s.userId, Some(d), Ingest, p.ingest, at, None)]
  }

  lemma SignedInSays(t: Tables, s: SignIn, p: Pair, at: int, d: nat)
    requires Valid(t) && IsFresh(t.tokens, p)
    requires DeviceOf(SignedIn(t, s, p, at).devices, s.userId, s.installation) == Some(d)
    ensures IsSignedIn(t, SignedIn(t, s, p, at), s, p, at, d)
  {
    var now, found := SignedIn(t, s, p, at), DeviceOf(t.devices, s.userId, s.installation);
    var id := if found.Some? then found.value else |t.devices|;
    SignInKeepsValid(t, s, p, at);
    DeviceIsUnique(now, id);
    forall i | 0 <= i < |t.tokens|
      ensures now.tokens[i] == RevokedIf(t.tokens[i], id, s.userId, at)
      ensures t.tokens[i].deviceId == Some(id) ==> t.tokens[i].userId == s.userId
    {
      assert TokenOk(t, i);
    }
  }

  /** A revoked machine keeps its other data; it and all its tokens are revoked, and nothing else is. */
  predicate IsDeviceRevoked(was: Tables, now: Tables, d: nat, at: int) {
    d < |was.devices| && |now.devices| == |was.devices| && now.devices[d].revokedAt == Some(at) &&
    now.devices[d] == was.devices[d].(revokedAt := Some(at)) &&
    (forall c :: 0 <= c < |was.devices| && c != d ==> now.devices[c] == was.devices[c]) &&
    |now.tokens| == |was.tokens| && EndsTokensOf(was.tokens, now.tokens, d, at)
  }

  lemma DeviceRevokedSays(t: Tables, d: nat, at: int)
    requires Valid(t) && d < |t.devices| && t.devices[d].revokedAt.None?
    ensures IsDeviceRevoked(t, DeviceRevoked(t, d, t.devices[d].userId, at), d, at)
  {
    forall i | 0 <= i < |t.tokens| && t.tokens[i].deviceId == Some(d)
      ensures t.tokens[i].userId == t.devices[d].userId
    {
      assert TokenOk(t, i);
    }
  }

  /** The transaction ends this token: its owner revokes it or its machine, or its machine signs in again. */
  predicate EndsToken(t: Tables, op: Op, i: nat)
    requires i < |t.tokens|
  {
    var k := t.tokens[i];
    match op
    case RevokeToken(j, user, _) => j == i && user == k.userId
    case RevokeDevice(d, user, _) =>
      k.deviceId == Some(d) && d < |t.devices| && user == t.devices[d].userId && t.devices[d].revokedAt == None
    case Exchange(s, p, _) =>
      k.deviceId.Some? && k.deviceId.value < |t.devices| && IsFresh(t.tokens, p) &&
      t.devices[k.deviceId.value].userId == s.userId && t.devices[k.deviceId.value].installation == s.installation
    case MintPlain(_, _, _, _) => false
  }

  /** One transaction: a token that was there keeps all but its revocation, and stays live exactly unless ended. */
  lemma StepEndsToken(t: Tables, op: Op, i: nat)
    requires Valid(t) && i < |t.tokens|
    ensures i < |After(t, op).tokens|
    ensures After(t, op).tokens[i] == t.tokens[i].(revokedAt := After(t, op).tokens[i].revokedAt)
    ensures IsLive(After(t, op).tokens[i]) <==> IsLive(t.tokens[i]) && !EndsToken(t, op, i)
  {
    assert TokenOk(t, i);
    if op.Exchange? && IsFresh(t.tokens, op.pair) {
      var s, now := op.signIn, SignedIn(t, op.signIn, op.pair, op.at);
      var found := DeviceOf(t.devices, s.userId, s.installation);
      if found.Some? && t.tokens[i].deviceId.Some? && EndsToken(t, op, i) {
        DeviceIsUnique(t, t.tokens[i].deviceId.value);
      }
    }
  }

  /** A token is live after a run exactly when it was live and no transaction of the run ended it. So a revoked one
      never comes back, and a new one lives until its owner revokes it or its machine, or the machine signs in again. */
  lemma {:induction false} LiveUnlessEnded(t: Tables, ops: seq<Op>, i: nat)
    requires Valid(t) && i < |t.tokens|
    ensures i < |AfterAll(t, ops).tokens| && AfterAll(t, ops).tokens[i].hash == t.tokens[i].hash
    ensures EndedBy(t, ops, i) || IsLive(AfterAll(t, ops).tokens[i]) == IsLive(t.tokens[i])
    ensures EndedBy(t, ops, i) ==> !IsLive(AfterAll(t, ops).tokens[i])
    decreases |ops|
  {
    if ops != [] {
      var front, op := ops[..|ops| - 1], ops[|ops| - 1];
      LiveUnlessEnded(t, front, i);
      EveryRunIsSafe(t, front);
      StepEndsToken(AfterAll(t, front), op, i);
      EndedByOneMore(t, front, op, i);
      assert ops == front + [op];
    }
  }

  /** One of the transactions, when its turn comes, ends this token. */
  predicate EndedBy(t: Tables, ops: seq<Op>, i: nat)
    requires |t.latest| == |t.devices|
  {
    exists k :: 0 <= k < |ops| && EndsAt(t, ops, k, i)
  }

  predicate EndsAt(t: Tables, ops: seq<Op>, k: nat, i: nat)
    requires |t.latest| == |t.devices| && k < |ops|
  {
    i < |AfterAll(t, ops[..k]).tokens| && EndsToken(AfterAll(t, ops[..k]), ops[k], i)
  }

  lemma EndedByOneMore(t: Tables, ops: seq<Op>, op: Op, i: nat)
    requires |t.latest| == |t.devices| && i < |AfterAll(t, ops).tokens|
    ensures EndedBy(t, ops + [op], i) <==> EndedBy(t, ops, i) || EndsToken(AfterAll(t, ops), op, i)
  {
    var all := ops + [op];
    assert all[..|ops|] == ops;
    forall k | 0 <= k < |ops| ensures EndsAt(t, all, k, i) == EndsAt(t, ops, k, i) { assert all[..k] == ops[..k]; }
    assert EndsAt(t, all, |ops|, i) == EndsToken(AfterAll(t, ops), op, i);
    if k :| 0 <= k < |ops| && EndsAt(t, ops, k, i) { assert EndsAt(t, all, k, i); }
    if k :| 0 <= k < |all| && EndsAt(t, all, k, i) { assert k < |ops| ==> EndsAt(t, ops, k, i); }
  }

  /** Once its owner has revoked a token, no run of transactions makes its hash resolve again. */
  lemma RevokedTokenIsNeverResolved(t: Tables, i: nat, at: int, ops: seq<Op>)
    requires Valid(t) && i < |t.tokens|
    ensures var now := AfterAll(TokenRevoked(t, i, t.tokens[i].userId, at), ops);
      forall j :: 0 <= j < |now.tokens| && now.tokens[j].hash == t.tokens[i].hash ==> !IsLive(now.tokens[j])
  {
    var revoked := TokenRevoked(t, i, t.tokens[i].userId, at);
    TokenRevocationKeepsValid(t, i, t.tokens[i].userId, at);
    EveryRunIsSafe(revoked, ops);
    LiveUnlessEnded(revoked, ops, i);
  }

  // ---------------------------------------------------------------- the tables, changed in place

  class AuthTables {
    var devices: seq<Device>
    var tokens: seq<Token>
    ghost var latest: seq<nat>

    ghost function Current(): Tables
      reads this
    {
      Tables(devices, tokens, latest)
    }

    constructor ()
      ensures Current() == NO_TABLES && Valid(Current())
    {
      devices, tokens, latest := [], [], [];
    }

    /** `mint_device_tokens`. Two first sign-ins of an installation can race: `raced` are the transactions that
        commit between this one's lookup and its insert. The loser fails on the unique index and tries again,
        which rotates the winner's pair. */
    method MintDeviceTokens(s: SignIn, pairs: (Pair, Pair), raced: seq<Op>, at: int)
      returns (device: Option<nat>, minted: Pair)
      requires Valid(Current())
      modifies this
      ensures Valid(Current())
      ensures device.Some? ==>
        exists before: Tables ::
          Valid(before) && IsFresh(before.tokens, minted) && Current() == SignedIn(before, s, minted, at) &&
          (before == old(Current()) || before == AfterAll(old(Current()), raced))
      ensures device.Some? ==>
        device.value < |devices| && latest[device.value] + 2 == |tokens| && devices[device.value].revokedAt.None?
      ensures device.Some? ==>
        DeviceOf(devices, s.userId, s.installation) == device && (minted == pairs.0 || minted == pairs.1)
      ensures device.None? ==> !IsFresh(tokens, pairs.1)
      ensures device.Some? ==> exists before: Tables ::
        (before == old(Current()) || before == AfterAll(old(Current()), raced)) &&
        IsSignedIn(before, Current(), s, minted, at, device.value)
    {
      var found := DeviceOf(devices, s.userId, s.installation);
      if found.None? {
        Race(raced);
      }
      var now := DeviceOf(devices, s.userId, s.installation);
      if found == now && IsFresh(tokens, pairs.0) {
        device := Rotate(s, pairs.0, at);
        return device, pairs.0;
      }
      if IsFresh(tokens, pairs.1) {
        device := Rotate(s, pairs.1, at);
        return device, pairs.1;
      }
      return None, pairs.1;
    }

    /** The body of one attempt, once nothing stands in its way. */
    method Rotate(s: SignIn, p: Pair, at: int) returns (device: Option<nat>)
      requires Valid(Current()) && IsFresh(tokens, p)
      modifies this
      ensures Valid(Current()) && Current() == SignedIn(old(Current()), s, p, at)
      ensures device.Some? && device.value < |devices| && latest[device.value] + 2 == |tokens| &&
        devices[device.value].revokedAt.None?
      ensures DeviceOf(devices, s.userId, s.installation) == device
      ensures IsSignedIn(old(Current()), Current(), s, p, at, device.value)
    {
      SignInKeepsValid(Current(), s, p, at);
      var d := DeviceOf(devices, s.userId, s.installation);
      if d.None? {
        d := Some(|devices|);
        devices := devices + [Device(s.userId, s.installation, s.name, s.version, s.commit, at, at, None)];
        latest := latest + [0];
      } else {
        devices := devices[d.value := Returning(devices[d.value], s, at)];
      }
      latest := latest[d.value := |tokens|];
      tokens := Revoked(tokens, d.value, s.userId, at) +
        [Token(s.userId, d, Cli, p.cli, at, None), Token(s.userId, d, Ingest, p.ingest, at, None)];
      device := d;
      DeviceIsUnique(Current(), d.value);
      SignedInSays(old(Current()), s, p, at, d.value);
    }

    /** Other transactions, each a step of its own. */
    method Race(ops: seq<Op>)
      requires Valid(Current())
      modifies this
      ensures Valid(Current()) && Current() == AfterAll(old(Current()), ops)
    {
      EveryRunIsSafe(Current(), ops);
      ghost var end := AfterAll(Current(), ops);
      for n := 0 to |ops|
        invariant Valid(Current()) && Current() == AfterAll(old(Current()), ops[..n])
      {
        assert ops[..n + 1][..n] == ops[..n];
        match ops[n]
        case Exchange(s, p, at) => if IsFresh(tokens, p) { var _ := Rotate(s, p, at); }
        case RevokeDevice(d, user, at) => var _ := RevokeDeviceOf(d, user, at);
        case RevokeToken(i, user, at) => var _ := RevokeTokenOf(i, user, at);
        case MintPlain(user, kind, hash, at) => if !HashKnown(tokens, hash) { MintToken(user, kind, hash, at); }
      }
      assert ops[..|ops|] == ops;
    }

    method MintToken(user: string, kind: Kind, hash: string, at: int)
      requires Valid(Current()) && !HashKnown(tokens, hash)
      modifies this
      ensures Valid(Current()) && Current() == After(old(Current()), MintPlain(user, kind, hash, at))
      ensures devices == old(devices) && tokens == old(tokens) + [Token(user, None, kind, hash, at, None)]
    {
      MintPlainKeepsValid(Current(), Token(user, None, kind, hash, at, None));
      tokens := tokens + [Token(user, None, kind, hash, at, None)];
    }

    /** `revoke_device`: the machine and all its tokens, in one transaction. */
    method RevokeDeviceOf(device: nat, user: string, at: int) returns (changed: bool)
      requires Valid(Current())
      modifies this
      ensures Valid(Current()) && Current() == DeviceRevoked(old(Current()), device, user, at)
      ensures changed <==>
        device < |old(devices)| && old(devices)[device].userId == user && old(devices)[device].revokedAt.None?
      ensures changed ==> LiveOf(Current(), device, Cli) == LiveOf(Current(), device, Ingest) == {}
      ensures changed ==> IsDeviceRevoked(old(Current()), Current(), device, at)
      ensures !changed ==> Current() == old(Current())
    {
      DeviceRevocationKeepsValid(Current(), device, user, at);
      changed := device < |devices| && devices[device].userId == user && devices[device].revokedAt.None?;
      if changed {
        DeviceRevokedSays(Current(), device, at);
        devices := devices[device := devices[device].(revokedAt := Some(at))];
        tokens := Revoked(tokens, device, user, at);
        forall i: nat | i < |tokens| && tokens[i].deviceId == Some(device) ensures !IsLive(tokens[i]) {
          assert TokenOk(Current(), i);
        }
      }
    }

    method RevokeTokenOf(token: nat, user: string, at: int) returns (changed: bool)
      requires Valid(Current())
      modifies this
      ensures Valid(Current()) && Current() == TokenRevoked(old(Current()), token, user, at)
      ensures changed <==>
        token < |old(tokens)| && old(tokens)[token].userId == user && old(tokens)[token].revokedAt == None
      ensures devices == old(devices) && latest == old(latest) && |tokens| == |old(tokens)|
      ensures forall i :: 0 <= i < |tokens| && !(changed && i == token) ==> tokens[i] == old(tokens)[i]
      ensures changed ==> tokens[token] == old(tokens)[token].(revokedAt := Some(at))
    {
      TokenRevocationKeepsValid(Current(), token, user, at);
      changed := token < |tokens| && tokens[token].userId == user && IsLive(tokens[token]);
      if changed { tokens := tokens[token := tokens[token].(revokedAt := Some(at))]; }
    }

    /** `resolve_token`: the one live token with this hash; never one of a revoked device, and of a device only
        from its latest sign-in. */
    method ResolveToken(hash: string) returns (r: Option<nat>)
      requires Valid(Current())
      ensures r.Some? <==> exists i :: 0 <= i < |tokens| && tokens[i].hash == hash && IsLive(tokens[i])
      ensures r.Some? ==> r.value < |tokens| && tokens[r.value].hash == hash && IsLive(tokens[r.value])
      ensures r.Some? && tokens[r.value].deviceId.Some? ==>
        var d := tokens[r.value].deviceId.value;
        d < |devices| && devices[d].revokedAt.None? && devices[d].userId == tokens[r.value].userId &&
        latest[d] <= r.value <= latest[d] + 1
    {
      r := None;
      for n := 0 to |tokens|
        invariant forall i :: 0 <= i < n ==> tokens[i].hash != hash
      {
        if tokens[n].hash == hash {
          assert TokenOk(Current(), n);
          return if IsLive(tokens[n]) then Some(n) else None;
        }
      }
    }
  }

  lemma DeviceIsUnique(t: Tables, d: nat)
    requires Valid(t) && d < |t.devices|
    ensures DeviceOf(t.devices, t.devices[d].userId, t.devices[d].installation) == Some(d)
  {
    var r := DeviceOf(t.devices, t.devices[d].userId, t.devices[d].installation);
    assert r.Some?;
  }
}
