/** The device store over its tables; each method is one transaction. */
module DeviceClass {
  import M = DeviceModel
  import opened DeviceChecks
  import opened DeviceProofs

  class DeviceStore {
    const crypto: M.Crypto
    var authorizations: map<string, M.Authorization>
    var devices: map<string, M.Device>
    var tokens: map<string, M.Token>
    var nonces: map<(string, string), int>
    ghost var accepted: seq<M.Acceptance>
    ghost var clock: int

    ghost function View(): M.Store
      reads this
    {
      M.Store(authorizations, devices, tokens, nonces, accepted)
    }

    ghost predicate Valid()
      reads this
    {
      Inv(View(), clock)
    }

    constructor (crypto: M.Crypto, now: int)
      ensures Valid() && View() == M.EMPTY && clock == now && this.crypto == crypto
    {
      this.crypto, authorizations, devices, tokens, nonces := crypto, map[], map[], map[], map[];
      accepted, clock := [], now;
      new;
      EmptyHolds(now);
    }

    /** An accepted request leaves its nonce behind; no accepted request had the same device, nonce and timestamp before. */
    method VerifyRequest(token: string, m: M.Message, signature: string, now: int) returns (ok: bool)
      requires Valid() && m.ForRequest? && clock <= now
      modifies `devices, `nonces, `accepted, `clock
      ensures Valid() && clock == now
      ensures var r := M.VerifyRequest(crypto, old(View()), token, m, signature, now);
              ok == r.Some? && View() == if ok then r.value else old(View())
      ensures ok <==> MayCall(crypto, old(View()), token, m, signature, now)
      ensures ok ==> forall a :: a in old(accepted) ==> !(a.device == m.device && a.nonce == m.nonce && a.timestamp == m.timestamp)
    {
      hide Inv; hide M.InTime; hide M.ValidNonce;
      StepKeeps(crypto, View(), M.Timed(now, M.Call(token, m, signature)), clock);
      AcceptedOnce(crypto, View(), token, m, signature, clock, now);
      CallIff(crypto, View(), token, m, signature, now);
      clock := now;
      if !M.InTime(now, m.timestamp) || !M.ValidNonce(m.nonce) { return false; }
      if m.device !in devices || devices[m.device].revoked { return false; }
      var hash := crypto.digest(token);
      if hash !in tokens { return false; }
      var t := tokens[hash];
      if t.device != m.device || !t.kind.Access? || t.expires <= now || t.consumed { return false; }
      if !crypto.verifies(devices[m.device].key, m, signature) { return false; }
      var remaining := M.Forgotten(nonces, now);
      if (m.device, m.nonce) in remaining { return false; }
      nonces := remaining[(m.device, m.nonce) := now];
      devices := devices[m.device := devices[m.device].(seen := now)];
      accepted := accepted + [M.Acceptance(m.device, m.nonce, m.timestamp, m.call, now)];
      return true;
    }

    /** access and refresh are the hashes of the two new random tokens. A collision leaves the tables alone. */
    method IssueTokens(device: string, access: string, refresh: string, now: int) returns (ok: bool)
      modifies `tokens
      ensures var r := M.IssueTokens(old(View()), device, access, refresh, now);
              ok == r.Some? && View() == if ok then r.value else old(View())
    {
      if access in tokens || refresh in tokens || access == refresh { return false; }
      tokens := tokens[access := M.Token(device, M.Access, now + 300, false)][refresh := M.Token(device, M.Refresh, now + 2_592_000, false)];
      return true;
    }

    /** A used refresh token revokes its device; an unused one is exchanged for a new pair. */
    method Refresh(m: M.Message, token: string, signature: string, access: string, refresh: string, now: int) returns (ok: bool)
      requires Valid() && m.ForRefresh? && clock <= now
      modifies `devices, `nonces, `tokens, `clock
      ensures Valid() && clock == now
      ensures var r := M.RefreshTokens(crypto, old(View()), m, token, signature, access, refresh, now);
              ok == r.Issued? && View() == if r.Denied? then old(View()) else r.store
      ensures ok <==> MayRotate(crypto, old(View()), m, token, signature, access, refresh, now)
      ensures IsReuse(crypto, old(View()), m, token, signature, now) <==> View() != old(View()) && !ok
      ensures ok ==> Unspent(old(View()), m.device) == {crypto.digest(token)} && Unspent(View(), m.device) == {refresh}
    {
      hide Inv; hide M.InTime; hide M.ValidNonce; hide Unspent; hide MayRotate; hide IsReuse; hide Exchanges;
      StepKeeps(crypto, View(), M.Timed(now, M.Rotate(m, token, signature, access, refresh)), clock);
      TokensHold(View(), clock);
      RotateKeepsTokens(crypto, View(), m, token, signature, access, refresh, now);
      RotateIff(crypto, View(), m, token, signature, access, refresh, now);
      RotateLeaves(crypto, View(), m, token, signature, access, refresh, now);
      clock := now;
      if !M.InTime(now, m.timestamp) || !M.ValidNonce(m.nonce) { return false; }
      if m.device !in devices || devices[m.device].revoked { return false; }
      var hash := crypto.digest(token);
      if m.token != hash || !crypto.verifies(devices[m.device].key, m, signature) { return false; }
      if hash !in tokens { return false; }
      var t := tokens[hash];
      if t.device != m.device || !t.kind.Refresh? || t.expires <= now { return false; }
      if t.consumed {
        devices := devices[m.device := devices[m.device].(revoked := true)];
        return false;
      }
      if (m.device, m.nonce) in nonces { return false; }
      var wasNonces, wasTokens := nonces, tokens;
      nonces := nonces[(m.device, m.nonce) := now];
      tokens := tokens[hash := t.(consumed := true)];
      ok := IssueTokens(m.device, access, refresh, now);
      if !ok { nonces, tokens := wasNonces, wasTokens; }
    }

    /** An approved authorization becomes one device with its first pair of tokens. */
    method Exchange(m: M.Message, signature: string, device: string, access: string, refresh: string, now: int) returns (ok: bool)
      requires Valid() && m.ForExchange? && clock <= now
      modifies `authorizations, `devices, `tokens, `clock
      ensures Valid() && clock == now
      ensures var r := M.Exchange(crypto, old(View()), m, signature, device, access, refresh, now);
              ok == r.Created? && View() == if ok then r.store else old(View())
      ensures ok <==> IsOpen(crypto, old(View()), m, signature, now) && old(authorizations)[m.authorization].approvedBy.Some?
                      && device !in old(devices) && NewHashes(old(View()), access, refresh)
      ensures ok ==> authorizations[m.authorization].consumed && Unspent(View(), device) == {refresh}
    {
      hide Inv; hide M.InTime; hide Unspent;
      StepKeeps(crypto, View(), M.Timed(now, M.Pair(m, signature, device, access, refresh)), clock);
      TokensHold(View(), clock);
      PairKeepsTokens(crypto, View(), m, signature, device, access, refresh, now);
      PairIff(crypto, View(), m, signature, device, access, refresh, now);
      clock := now;
      if !M.InTime(now, m.timestamp) { return false; }
      if m.authorization !in authorizations { return false; }
      var a := authorizations[m.authorization];
      if a.expires <= now || a.consumed || !crypto.verifies(a.key, m, signature) { return false; }
      if a.approvedBy.None? || device in devices { return false; }
      var wasAuthorizations, wasDevices := authorizations, devices;
      devices := devices[device := M.Device(a.approvedBy.value, a.key, false, now)];
      authorizations := authorizations[m.authorization := a.(consumed := true)];
      ok := IssueTokens(device, access, refresh, now);
      if !ok { authorizations, devices := wasAuthorizations, wasDevices; }
    }
  }

  lemma TokensHold(s: M.Store, now: int)
    requires Inv(s, now)
    ensures TokenInv(s)
  {}

  lemma AcceptedOnce(c: M.Crypto, s: M.Store, token: string, m: M.Message, signature: string, before: int, now: int)
    requires Inv(s, before) && before <= now && m.ForRequest?
    ensures M.VerifyRequest(c, s, token, m, signature, now).Some? ==>
              forall a :: a in s.accepted ==> !(a.device == m.device && a.nonce == m.nonce && a.timestamp == m.timestamp)
  {}
}
