/** Who is let through, said of the tables and of the steps that led to them. */
module DeviceChecks {
  import opened Common
  import opened DeviceModel

  // ---- One call -------------------------------------------------------------------------------

  /** A token of the device, of one kind, neither expired nor used up. */
  ghost predicate GoodToken(s: Store, hash: string, device: string, kind: Kind, now: int) {
    hash in s.tokens && s.tokens[hash].device == device && s.tokens[hash].kind == kind && s.tokens[hash].expires > now && !s.tokens[hash].consumed
  }

  ghost predicate Living(s: Store, device: string) { device in s.devices && !s.devices[device].revoked }

  ghost predicate Timely(m: Message, now: int) { now - 30 <= m.timestamp <= now + 30 }

  ghost predicate MayCall(c: Crypto, s: Store, token: string, m: Message, signature: string, now: int)
    requires m.ForRequest?
  {
    && Timely(m, now) && 16 <= |m.nonce| <= 128
    && Living(s, m.device) && GoodToken(s, c.digest(token), m.device, Access, now)
    && c.verifies(s.devices[m.device].key, m, signature)
    && ((m.device, m.nonce) in s.nonces ==> s.nonces[(m.device, m.nonce)] < now - 60)
  }

  /** A signed request is let through exactly when it may be. */
  lemma CallIff(c: Crypto, s: Store, token: string, m: Message, signature: string, now: int)
    requires m.ForRequest?
    ensures VerifyRequest(c, s, token, m, signature, now).Some? <==> MayCall(c, s, token, m, signature, now)
  {}

  /** What it leaves behind: its nonce, the time it was seen and a line in the record; nonces of the last minute stay. */
  lemma CallLeaves(c: Crypto, s: Store, token: string, m: Message, signature: string, now: int)
    requires m.ForRequest? && VerifyRequest(c, s, token, m, signature, now).Some?
    ensures var t := VerifyRequest(c, s, token, m, signature, now).value;
            && t.tokens == s.tokens && t.authorizations == s.authorizations && t.devices.Keys == s.devices.Keys
            && (forall d :: d in s.devices ==> t.devices[d] == if d == m.device then s.devices[d].(seen := now) else s.devices[d])
            && (forall n :: n in t.nonces <==> n == (m.device, m.nonce) || (n in s.nonces && s.nonces[n] >= now - 60))
            && (forall n :: n in t.nonces ==> t.nonces[n] == if n == (m.device, m.nonce) then now else s.nonces[n])
            && t.accepted == s.accepted + [Acceptance(m.device, m.nonce, m.timestamp, m.call, now)]
  {}

  /** A rotation that may go on to the tokens: in time, by a living device, and signed over the very refresh token. */
  ghost predicate RightlyAsked(c: Crypto, s: Store, m: Message, token: string, signature: string, now: int)
    requires m.ForRefresh?
  {
    && Timely(m, now) && 16 <= |m.nonce| <= 128
    && Living(s, m.device) && m.token == c.digest(token) && c.verifies(s.devices[m.device].key, m, signature)
  }

  ghost predicate NewHashes(s: Store, access: string, refresh: string) { access !in s.tokens && refresh !in s.tokens && access != refresh }

  ghost predicate MayRotate(c: Crypto, s: Store, m: Message, token: string, signature: string, access: string, refresh: string, now: int)
    requires m.ForRefresh?
  {
    && RightlyAsked(c, s, m, token, signature, now) && GoodToken(s, c.digest(token), m.device, Refresh, now)
    && (m.device, m.nonce) !in s.nonces && NewHashes(s, access, refresh)
  }

  /** The token was good, but has been used before. */
  ghost predicate IsReuse(c: Crypto, s: Store, m: Message, token: string, signature: string, now: int)
    requires m.ForRefresh?
  {
    var hash := c.digest(token);
    RightlyAsked(c, s, m, token, signature, now) && hash in s.tokens && s.tokens[hash].consumed
    && s.tokens[hash].device == m.device && s.tokens[hash].kind == Refresh && s.tokens[hash].expires > now
  }

  lemma RotateIff(c: Crypto, s: Store, m: Message, token: string, signature: string, access: string, refresh: string, now: int)
    requires m.ForRefresh?
    ensures var r := RefreshTokens(c, s, m, token, signature, access, refresh, now);
            (r.Issued? <==> MayRotate(c, s, m, token, signature, access, refresh, now)) && (r.Reused? <==> IsReuse(c, s, m, token, signature, now))
  {}

  /** One token is used up and two begin: five minutes of access, thirty days of refresh. */
  ghost predicate Exchanges(s: Store, t: Store, spent: set<string>, device: string, access: string, refresh: string, now: int) {
    && t.tokens.Keys == s.tokens.Keys + {access, refresh} && spent <= s.tokens.Keys
    && access in t.tokens && t.tokens[access] == Token(device, Access, now + 5 * 60, false)
    && refresh in t.tokens && t.tokens[refresh] == Token(device, Refresh, now + 30 * 24 * 3600, false)
    && forall h :: h in s.tokens ==> t.tokens[h] == if h in spent then s.tokens[h].(consumed := true) else s.tokens[h]
  }

  lemma RotateLeaves(c: Crypto, s: Store, m: Message, token: string, signature: string, access: string, refresh: string, now: int)
    requires m.ForRefresh?
    ensures var r := RefreshTokens(c, s, m, token, signature, access, refresh, now);
            && (r.Issued? ==>
                  && Exchanges(s, r.store, {c.digest(token)}, m.device, access, refresh, now)
                  && r.store.devices == s.devices && r.store.authorizations == s.authorizations && r.store.accepted == s.accepted
                  && r.store.nonces == s.nonces[(m.device, m.nonce) := now])
            && (r.Reused? ==> m.device in s.devices && r.store == s.(devices := s.devices[m.device := s.devices[m.device].(revoked := true)]))
  {}

  /** An authorization that is still open to this signature. */
  ghost predicate IsOpen(c: Crypto, s: Store, m: Message, signature: string, now: int)
    requires m.ForExchange?
  {
    && Timely(m, now) && m.authorization in s.authorizations
    && var a := s.authorizations[m.authorization]; a.expires > now && !a.consumed && c.verifies(a.key, m, signature)
  }

  lemma PairIff(c: Crypto, s: Store, m: Message, signature: string, device: string, access: string, refresh: string, now: int)
    requires m.ForExchange?
    ensures var r := Exchange(c, s, m, signature, device, access, refresh, now);
            && (r.Created? <==> IsOpen(c, s, m, signature, now) && s.authorizations[m.authorization].approvedBy.Some?
                                && device !in s.devices && NewHashes(s, access, refresh))
            && (r.Pending? <==> IsOpen(c, s, m, signature, now) && s.authorizations[m.authorization].approvedBy.None?)
  {}

  /** The new device has the key that was authorized and the owner who approved it. */
  lemma PairLeaves(c: Crypto, s: Store, m: Message, signature: string, device: string, access: string, refresh: string, now: int)
    requires m.ForExchange? && Exchange(c, s, m, signature, device, access, refresh, now).Created?
    ensures var t := Exchange(c, s, m, signature, device, access, refresh, now).store;
            && m.authorization in s.authorizations && s.authorizations[m.authorization].approvedBy.Some?
            && var a := s.authorizations[m.authorization];
               && t.devices == s.devices[device := Device(a.approvedBy.value, a.key, false, now)]
               && t.authorizations == s.authorizations[m.authorization := a.(consumed := true)]
               && Exchanges(s, t, {}, device, access, refresh, now) && t.nonces == s.nonces && t.accepted == s.accepted
  {}

  // ---- What the tables record of a run --------------------------------------------------------

  /** The step let the device use the nonce: its request was let through, or its tokens were rotated. */
  ghost predicate Uses(before: Store, t: Timed, after: Store, device: string, nonce: string) {
    || (t.step.Call? && t.step.message.ForRequest? && t.step.message.device == device && t.step.message.nonce == nonce
        && |after.accepted| > |before.accepted|)
    || (t.step.Rotate? && t.step.message.ForRefresh? && t.step.message.device == device && t.step.message.nonce == nonce
        && after.tokens != before.tokens)
  }

  /** The step made the device, with the key and for the owner of an approved authorization. */
  ghost predicate Pairs(before: Store, t: Timed, after: Store, device: string, key: string, owner: string) {
    && device !in before.devices && device in after.devices && t.step.Pair? && t.step.message.ForExchange? && t.step.device == device
    && t.step.message.authorization in before.authorizations
    && var a := before.authorizations[t.step.message.authorization]; a.key == key && a.approvedBy == Some(owner)
  }

  /** The step issued the token to the device. */
  ghost predicate Issues(before: Store, t: Timed, after: Store, hash: string, device: string, kind: Kind) {
    && hash !in before.tokens && hash in after.tokens
    && ((t.step.Pair? && t.step.device == device && hash == if kind.Access? then t.step.access else t.step.refresh)
        || (t.step.Rotate? && t.step.message.ForRefresh? && t.step.message.device == device
            && hash == if kind.Access? then t.step.access else t.step.refresh))
  }

  ghost predicate UsesAt(states: seq<Store>, steps: seq<Timed>, k: nat, device: string, nonce: string)
    requires |states| == |steps| + 1 && k < |steps|
  {
    Uses(states[k], steps[k], states[k + 1], device, nonce)
  }

  /** A nonce in the table is the time of a use, and a use that the table no longer tells of is more than a minute old. */
  ghost predicate NoncesTell(states: seq<Store>, steps: seq<Timed>, i: nat, device: string, nonce: string)
    requires |states| == |steps| + 1 && i < |states|
  {
    var n, table := (device, nonce), states[i].nonces;
    && (n in table ==> exists k :: 0 <= k < i && UsesAt(states, steps, k, device, nonce) && steps[k].now == table[n])
    && (forall k :: 0 <= k < i && UsesAt(states, steps, k, device, nonce) ==>
          (n in table && table[n] >= steps[k].now) || steps[k].now < steps[i - 1].now - 60)
  }

  lemma NonceStep(c: Crypto, s: Store, t: Timed, device: string, nonce: string)
    requires WellTyped(t.step)
    ensures var next, n := Next(c, s, t), (device, nonce);
            if Uses(s, t, next, device, nonce) then n in next.nonces && next.nonces[n] == t.now
            else (n in next.nonces ==> n in s.nonces && next.nonces[n] == s.nonces[n])
                 && (n in s.nonces && n !in next.nonces ==> s.nonces[n] < t.now - 60)
  {
    hide VerifyRequest; hide RefreshTokens; hide Exchange;
    match t.step
    case Call(token, m, signature) =>
      if VerifyRequest(c, s, token, m, signature, t.now).Some? { CallLeaves(c, s, token, m, signature, t.now); }
    case Rotate(m, token, signature, access, refresh) =>
      RotateLeaves(c, s, m, token, signature, access, refresh, t.now);
      RotateIff(c, s, m, token, signature, access, refresh, t.now);
    case Pair(m, signature, d, access, refresh) =>
      if Exchange(c, s, m, signature, d, access, refresh, t.now).Created? { PairLeaves(c, s, m, signature, d, access, refresh, t.now); }
    case _ =>
  }

  lemma {:induction false} NoncesAreUses(c: Crypto, states: seq<Store>, steps: seq<Timed>, i: nat, device: string, nonce: string)
    requires IsRun(c, states, steps) && i < |states|
    ensures NoncesTell(states, steps, i, device, nonce)
  {
    hide Next; hide Uses;
    if i > 0 {
      NoncesAreUses(c, states, steps, i - 1, device, nonce);
      NonceStep(c, states[i - 1], steps[i - 1], device, nonce);
      assert UsesAt(states, steps, i - 1, device, nonce) == Uses(states[i - 1], steps[i - 1], states[i], device, nonce);
    }
  }

  lemma DevicesKeep(c: Crypto, s: Store, t: Timed, device: string)
    requires WellTyped(t.step) && !t.step.Pair?
    ensures var next := Next(c, s, t).devices;
            && (device in next <==> device in s.devices)
            && (device in next ==> var d, e := s.devices[device], next[device]; e.key == d.key && e.owner == d.owner && (d.revoked ==> e.revoked))
  {
    hide VerifyRequest; hide RefreshTokens; hide Exchanges;
    match t.step
    case Call(token, m, signature) =>
      if VerifyRequest(c, s, token, m, signature, t.now).Some? { CallLeaves(c, s, token, m, signature, t.now); }
    case Rotate(m, token, signature, access, refresh) => RotateLeaves(c, s, m, token, signature, access, refresh, t.now);
    case _ =>
  }

  lemma DeviceStep(c: Crypto, s: Store, t: Timed, device: string)
    requires WellTyped(t.step) && device in Next(c, s, t).devices
    ensures var next := Next(c, s, t); var d := next.devices[device];
            if device in s.devices then d.key == s.devices[device].key && d.owner == s.devices[device].owner && (s.devices[device].revoked ==> d.revoked)
            else Pairs(s, t, next, device, d.key, d.owner)
  {
    hide Exchange; hide Exchanges; hide IsOpen; hide NewHashes;
    match t.step
    case Pair(m, signature, d, access, refresh) =>
      PairIff(c, s, m, signature, d, access, refresh, t.now);
      if Exchange(c, s, m, signature, d, access, refresh, t.now).Created? { PairLeaves(c, s, m, signature, d, access, refresh, t.now); }
    case _ =>
      hide Next;
      DevicesKeep(c, s, t, device);
  }

  ghost predicate PairedAt(states: seq<Store>, steps: seq<Timed>, p: nat, device: string, key: string, owner: string)
    requires |states| == |steps| + 1 && p < |steps|
  {
    Pairs(states[p], steps[p], states[p + 1], device, key, owner)
  }

  /** Every device was made by an exchange, and has kept the key and owner it was made with. */
  lemma {:induction false} DeviceWasPaired(c: Crypto, states: seq<Store>, steps: seq<Timed>, i: nat, device: string) returns (p: nat)
    requires IsRun(c, states, steps) && i < |states| && device in states[i].devices
    ensures p < i && PairedAt(states, steps, p, device, states[i].devices[device].key, states[i].devices[device].owner)
  {
    hide Next; hide Pairs;
    assert i > 0;
    DeviceStep(c, states[i - 1], steps[i - 1], device);
    if device in states[i - 1].devices {
      p := DeviceWasPaired(c, states, steps, i - 1, device);
    } else {
      p := i - 1;
    }
  }

  function Lifetime(kind: Kind): int { if kind.Access? then 5 * 60 else 30 * 24 * 3600 }

  lemma TokensStay(c: Crypto, s: Store, t: Timed)
    requires WellTyped(t.step) && !t.step.Rotate? && !t.step.Pair?
    ensures Next(c, s, t).tokens == s.tokens
  {
    hide VerifyRequest;
    if t.step.Call? && VerifyRequest(c, s, t.step.token, t.step.message, t.step.signature, t.now).Some? {
      CallLeaves(c, s, t.step.token, t.step.message, t.step.signature, t.now);
    }
  }

  lemma TokenStep(c: Crypto, s: Store, t: Timed, hash: string)
    requires WellTyped(t.step) && hash in Next(c, s, t).tokens
    ensures var next := Next(c, s, t); var token := next.tokens[hash];
            if hash in s.tokens then token == s.tokens[hash].(consumed := token.consumed) && (s.tokens[hash].consumed ==> token.consumed)
            else Issues(s, t, next, hash, token.device, token.kind) && token.expires == t.now + Lifetime(token.kind) && !token.consumed
  {
    hide VerifyRequest; hide RefreshTokens; hide Exchange;
    match t.step
    case Rotate(m, token, signature, access, refresh) => RotateLeaves(c, s, m, token, signature, access, refresh, t.now);
    case Pair(m, signature, d, access, refresh) =>
      if Exchange(c, s, m, signature, d, access, refresh, t.now).Created? { PairLeaves(c, s, m, signature, d, access, refresh, t.now); }
    case _ => TokensStay(c, s, t);
  }

  ghost predicate IssuedAt(states: seq<Store>, steps: seq<Timed>, q: nat, hash: string, device: string, kind: Kind)
    requires |states| == |steps| + 1 && q < |steps|
  {
    Issues(states[q], steps[q], states[q + 1], hash, device, kind)
  }

  /** Every token was issued by an exchange or a rotation of its device, and expires its lifetime after that. */
  lemma {:induction false} TokenWasIssued(c: Crypto, states: seq<Store>, steps: seq<Timed>, i: nat, hash: string) returns (q: nat)
    requires IsRun(c, states, steps) && i < |states| && hash in states[i].tokens
    ensures var t := states[i].tokens[hash];
            q < i && IssuedAt(states, steps, q, hash, t.device, t.kind) && t.expires == steps[q].now + Lifetime(t.kind)
  {
    hide Next; hide Issues;
    assert i > 0;
    TokenStep(c, states[i - 1], steps[i - 1], hash);
    if hash in states[i - 1].tokens {
      q := TokenWasIssued(c, states, steps, i - 1, hash);
    } else {
      q := i - 1;
    }
  }

  /** A use of the nonce in the last minute. */
  ghost predicate JustUsed(states: seq<Store>, steps: seq<Timed>, i: nat, device: string, nonce: string, now: int)
    requires |states| == |steps| + 1 && i <= |steps|
  {
    exists k :: 0 <= k < i && UsesAt(states, steps, k, device, nonce) && steps[k].now >= now - 60
  }

  /** The device was paired with a key under which the message is rightly signed. */
  ghost predicate SignedByPaired(c: Crypto, states: seq<Store>, steps: seq<Timed>, i: nat, m: Message, signature: string)
    requires |states| == |steps| + 1 && i <= |steps| && m.ForRequest?
  {
    exists p, key, owner :: 0 <= p < i && PairedAt(states, steps, p, m.device, key, owner) && c.verifies(key, m, signature)
  }

  /** The device is made once, so its key is the one it was paired with. */
  lemma {:induction false} PairedOnce(c: Crypto, states: seq<Store>, steps: seq<Timed>, p: nat, i: nat, device: string, key: string, owner: string)
    requires IsRun(c, states, steps) && p < i < |states| && PairedAt(states, steps, p, device, key, owner)
    ensures device in states[i].devices && states[i].devices[device].key == key && states[i].devices[device].owner == owner
  {
    hide Next;
    if i == p + 1 {
      assert device in states[i].devices;
      DeviceStep(c, states[p], steps[p], device);
    } else {
      PairedOnce(c, states, steps, p, i - 1, device, key, owner);
      DeviceStays(c, states[i - 1], steps[i - 1], device);
      DeviceStep(c, states[i - 1], steps[i - 1], device);
    }
  }

  lemma DeviceStays(c: Crypto, s: Store, t: Timed, device: string)
    requires WellTyped(t.step) && device in s.devices
    ensures device in Next(c, s, t).devices
  {
    if !t.step.Pair? {
      hide Next;
      DevicesKeep(c, s, t, device);
    }
  }

  /** In every run, a signed request is let through exactly when it is in time, its nonce has a proper length and was not used in the last
      minute, its device is not revoked and was paired with the key that verifies it, and its token is a good access token of it. */
  lemma CallIsAcceptedIff(c: Crypto, states: seq<Store>, steps: seq<Timed>, i: nat)
    requires IsRun(c, states, steps) && i < |steps| && steps[i].step.Call?
    ensures var m, now := steps[i].step.message, steps[i].now;
            |states[i + 1].accepted| > |states[i].accepted|
            <==> (&& Timely(m, now) && 16 <= |m.nonce| <= 128 && !JustUsed(states, steps, i, m.device, m.nonce, now)
                  && Living(states[i], m.device) && SignedByPaired(c, states, steps, i, m, steps[i].step.signature)
                  && GoodToken(states[i], c.digest(steps[i].step.token), m.device, Access, now))
  {
    hide Timely; hide Living; hide GoodToken; hide Pairs; hide Uses;
    var m, now, token, signature := steps[i].step.message, steps[i].now, steps[i].step.token, steps[i].step.signature;
    AcceptedGrowsIff(c, states[i], steps[i]);
    NonceIsJustUsedIff(c, states, steps, i, m.device, m.nonce, now);
    SignatureIsPairedIff(c, states, steps, i, m, signature);
  }

  lemma AcceptedGrowsIff(c: Crypto, s: Store, t: Timed)
    requires t.step.Call? && WellTyped(t.step)
    ensures |Next(c, s, t).accepted| > |s.accepted| <==> MayCall(c, s, t.step.token, t.step.message, t.step.signature, t.now)
  {
    hide MayCall; hide InTime; hide ValidNonce; hide Forgotten;
    CallIff(c, s, t.step.token, t.step.message, t.step.signature, t.now);
  }

  lemma NonceIsJustUsedIff(c: Crypto, states: seq<Store>, steps: seq<Timed>, i: nat, device: string, nonce: string, now: int)
    requires IsRun(c, states, steps) && i <= |steps| && (forall k :: 0 <= k < i ==> steps[k].now <= now)
    ensures JustUsed(states, steps, i, device, nonce, now)
       <==> (device, nonce) in states[i].nonces && states[i].nonces[(device, nonce)] >= now - 60
  {
    hide IsRun; hide UsesAt;
    assert |states| == |steps| + 1 by { RunLengths(c, states, steps); }
    NoncesAreUses(c, states, steps, i, device, nonce);
  }

  lemma RunLengths(c: Crypto, states: seq<Store>, steps: seq<Timed>)
    requires IsRun(c, states, steps)
    ensures |states| == |steps| + 1
  {}

  lemma SignatureIsPairedIff(c: Crypto, states: seq<Store>, steps: seq<Timed>, i: nat, m: Message, signature: string)
    requires IsRun(c, states, steps) && i <= |steps| && m.ForRequest?
    ensures SignedByPaired(c, states, steps, i, m, signature)
       <==> m.device in states[i].devices && c.verifies(states[i].devices[m.device].key, m, signature)
  {
    hide Next; hide Pairs;
    if m.device in states[i].devices && c.verifies(states[i].devices[m.device].key, m, signature) {
      var p := DeviceWasPaired(c, states, steps, i, m.device);
    }
    if SignedByPaired(c, states, steps, i, m, signature) {
      var p, key, owner :| 0 <= p < i && PairedAt(states, steps, p, m.device, key, owner) && c.verifies(key, m, signature);
      PairedOnce(c, states, steps, p, i, m.device, key, owner);
    }
  }

  /** Every entry of the record is a call that was signed under the key its device was paired with, within half a minute of its
      timestamp, with an access token issued to that device less than five minutes before. */
  lemma {:induction false} AcceptedIsAuthentic(c: Crypto, states: seq<Store>, steps: seq<Timed>, i: nat, n: nat)
    returns (k: nat, paired: nat, key: string, owner: string, issued: nat)
    requires IsRun(c, states, steps) && i < |states| && n < |states[i].accepted|
    ensures k < i && steps[k].step.Call? && var a := states[i].accepted[n]; var m := steps[k].step.message;
            && m == ForRequest(a.device, a.nonce, a.timestamp, a.call) && steps[k].now == a.at && Timely(m, a.at)
            && paired < k && PairedAt(states, steps, paired, a.device, key, owner) && c.verifies(key, m, steps[k].step.signature)
            && issued < k && IssuedAt(states, steps, issued, c.digest(steps[k].step.token), a.device, Access) && a.at < steps[issued].now + 5 * 60
  {
    hide Next; hide Pairs; hide Issues;
    assert i > 0;
    RecordStep(c, states[i - 1], steps[i - 1]);
    if n < |states[i - 1].accepted| {
      k, paired, key, owner, issued := AcceptedIsAuthentic(c, states, steps, i - 1, n);
    } else {
      k := i - 1;
      var m := steps[k].step.message;
      paired := DeviceWasPaired(c, states, steps, k, m.device);
      key, owner := states[k].devices[m.device].key, states[k].devices[m.device].owner;
      issued := TokenWasIssued(c, states, steps, k, c.digest(steps[k].step.token));
    }
  }

  lemma RecordStep(c: Crypto, s: Store, t: Timed)
    requires WellTyped(t.step)
    ensures var next := Next(c, s, t);
            || next.accepted == s.accepted
            || (t.step.Call? && MayCall(c, s, t.step.token, t.step.message, t.step.signature, t.now)
                && var m := t.step.message; next.accepted == s.accepted + [Acceptance(m.device, m.nonce, m.timestamp, m.call, t.now)])
  {
    hide MayCall; hide InTime; hide ValidNonce; hide Forgotten;
    if t.step.Call? { CallIff(c, s, t.step.token, t.step.message, t.step.signature, t.now); }
  }

  // ---- Approval and revocation ----------------------------------------------------------------

  lemma AuthorizationsStay(c: Crypto, s: Store, t: Timed)
    requires WellTyped(t.step) && (t.step.Call? || t.step.Rotate? || t.step.Revoke?)
    ensures Next(c, s, t).authorizations == s.authorizations
  {
    hide VerifyRequest; hide RefreshTokens; hide Exchanges;
    match t.step
    case Call(token, m, signature) =>
      if VerifyRequest(c, s, token, m, signature, t.now).Some? { CallLeaves(c, s, token, m, signature, t.now); }
    case Rotate(m, token, signature, access, refresh) => RotateLeaves(c, s, m, token, signature, access, refresh, t.now);
    case _ =>
  }

  lemma AuthorizationStep(c: Crypto, s: Store, t: Timed, id: string)
    requires WellTyped(t.step) && id in Next(c, s, t).authorizations
    ensures var a := Next(c, s, t).authorizations[id];
            if id in s.authorizations then
              && a.key == s.authorizations[id].key && a.expires == s.authorizations[id].expires && (s.authorizations[id].consumed ==> a.consumed)
              && (a.approvedBy != s.authorizations[id].approvedBy ==>
                    s.authorizations[id].approvedBy.None? && a.approvedBy.Some? && t.step == Approve(id, a.approvedBy.value) && t.now < a.expires)
            else t.step == Authorize(id, a.key) && a.expires == t.now + 10 * 60 && a.approvedBy.None? && !a.consumed
  {
    hide VerifyRequest; hide RefreshTokens; hide Exchange; hide Exchanges;
    match t.step
    case Pair(m, signature, d, access, refresh) =>
      if Exchange(c, s, m, signature, d, access, refresh, t.now).Created? { PairLeaves(c, s, m, signature, d, access, refresh, t.now); }
    case Authorize(_, _) =>
    case Approve(_, _) =>
    case _ => AuthorizationsStay(c, s, t);
  }

  /** Whoever is named as the approver approved that authorization within ten minutes of its beginning, and it began with its key. */
  lemma {:induction false} ApprovalWasGiven(c: Crypto, states: seq<Store>, steps: seq<Timed>, i: nat, id: string) returns (began: nat, given: nat)
    requires IsRun(c, states, steps) && i < |states| && id in states[i].authorizations
    ensures var a := states[i].authorizations[id];
            && began < i && steps[began].step == Authorize(id, a.key) && a.expires == steps[began].now + 10 * 60
            && (a.approvedBy.Some? ==> began < given < i && steps[given].step == Approve(id, a.approvedBy.value) && steps[given].now < a.expires)
  {
    hide Next;
    assert i > 0;
    AuthorizationStep(c, states[i - 1], steps[i - 1], id);
    if id in states[i - 1].authorizations {
      began, given := ApprovalWasGiven(c, states, steps, i - 1, id);
      if states[i].authorizations[id].approvedBy != states[i - 1].authorizations[id].approvedBy { given := i - 1; }
    } else {
      began, given := i - 1, 0;
    }
  }

  /** The step revokes the device: it says so, or a used refresh token of the device came back. */
  ghost predicate RevokesAt(c: Crypto, states: seq<Store>, steps: seq<Timed>, k: nat, device: string)
    requires |states| == |steps| + 1 && k < |steps|
  {
    || (steps[k].step == Revoke(device) && device in states[k].devices)
    || (steps[k].step.Rotate? && steps[k].step.message.ForRefresh? && steps[k].step.message.device == device
        && IsReuse(c, states[k], steps[k].step.message, steps[k].step.token, steps[k].step.signature, steps[k].now))
  }

  lemma RevokedStepIff(c: Crypto, states: seq<Store>, steps: seq<Timed>, k: nat, device: string)
    requires IsRun(c, states, steps) && k < |steps|
    ensures (device in states[k + 1].devices && states[k + 1].devices[device].revoked)
            <==> (device in states[k].devices && states[k].devices[device].revoked) || RevokesAt(c, states, steps, k, device)
  {
    hide VerifyRequest; hide RefreshTokens; hide Exchange; hide Exchanges; hide IsReuse; hide MayRotate; hide IsOpen; hide NewHashes;
    var s, t := states[k], steps[k];
    match t.step
    case Call(token, m, signature) =>
      if VerifyRequest(c, s, token, m, signature, t.now).Some? { CallLeaves(c, s, token, m, signature, t.now); }
    case Rotate(m, token, signature, access, refresh) =>
      RotateIff(c, s, m, token, signature, access, refresh, t.now);
      RotateLeaves(c, s, m, token, signature, access, refresh, t.now);
    case Pair(m, signature, d, access, refresh) =>
      PairIff(c, s, m, signature, d, access, refresh, t.now);
      if Exchange(c, s, m, signature, d, access, refresh, t.now).Created? { PairLeaves(c, s, m, signature, d, access, refresh, t.now); }
    case _ =>
  }

  /** In every run a device is revoked exactly when it was revoked by hand or one of its used refresh tokens came back. */
  lemma {:induction false} RevokedIff(c: Crypto, states: seq<Store>, steps: seq<Timed>, i: nat, device: string)
    requires IsRun(c, states, steps) && i < |states|
    ensures (device in states[i].devices && states[i].devices[device].revoked) <==> exists k :: 0 <= k < i && RevokesAt(c, states, steps, k, device)
  {
    hide Next; hide RevokesAt;
    if i > 0 {
      RevokedIff(c, states, steps, i - 1, device);
      RevokedStepIff(c, states, steps, i - 1, device);
    }
  }
}
