/** Forgetting nonces is sound, and every device has exactly one refresh token that is not consumed. */
module DeviceProofs {
  import opened DeviceModel

  // ---- Nonces ---------------------------------------------------------------------------------

  /** An accepted request was in time, and its nonce is kept until it could no longer be in time again. */
  ghost predicate NonceInv(s: Store, now: int) {
    forall i :: 0 <= i < |s.accepted| ==>
      var a := s.accepted[i];
      InTime(a.at, a.timestamp) && a.at <= now && (Kept(s, a) || a.at + NONCE_SECONDS < now)
  }

  ghost predicate Kept(s: Store, a: Acceptance) {
    (a.device, a.nonce) in s.nonces && s.nonces[(a.device, a.nonce)] >= a.at
  }

  /** No device, nonce and timestamp is accepted twice. */
  ghost predicate OnceInv(s: Store) {
    forall i, j :: 0 <= i < j < |s.accepted| ==>
      !(s.accepted[i].device == s.accepted[j].device && s.accepted[i].nonce == s.accepted[j].nonce && s.accepted[i].timestamp == s.accepted[j].timestamp)
  }

  ghost predicate ClockInv(s: Store, now: int) { forall n :: n in s.nonces ==> s.nonces[n] <= now }

  lemma CallKeepsNonces(c: Crypto, s: Store, token: string, m: Message, signature: string, before: int, now: int)
    requires NonceInv(s, before) && ClockInv(s, before) && before <= now && m.ForRequest?
    ensures var r := VerifyRequest(c, s, token, m, signature, now);
            NonceInv(s, now) && ClockInv(s, now) && (r.Some? ==> NonceInv(r.value, now) && ClockInv(r.value, now))
  {}

  /** The heart of it: a request accepted before is either still remembered, or so old that its timestamp is out of time. */
  lemma CallKeepsOnce(c: Crypto, s: Store, token: string, m: Message, signature: string, before: int, now: int)
    requires NonceInv(s, before) && OnceInv(s) && before <= now && m.ForRequest?
    ensures var r := VerifyRequest(c, s, token, m, signature, now); r.Some? ==> OnceInv(r.value)
  {}

  // ---- Refresh tokens -------------------------------------------------------------------------

  function Unspent(s: Store, device: string): set<string> {
    set h | h in s.tokens && s.tokens[h].device == device && s.tokens[h].kind.Refresh? && !s.tokens[h].consumed
  }

  ghost predicate TokenInv(s: Store) {
    && (forall h :: h in s.tokens ==> s.tokens[h].device in s.devices)
    && (forall d :: d in s.devices ==> |Unspent(s, d)| == 1)
  }

  /** The only element of a singleton. */
  lemma SingleIs(a: set<string>, h: string)
    requires |a| == 1 && h in a
    ensures a == {h}
  {
    assert |a - {h}| == 0;
  }

  lemma SameTokens(s: Store, t: Store)
    requires TokenInv(s) && t.tokens == s.tokens && t.devices.Keys == s.devices.Keys
    ensures TokenInv(t)
  {}

  /** Consuming the one unspent token of a device and issuing a pair leaves exactly the new one, and no other device is touched. */
  lemma RotationUnspent(s: Store, t: Store, device: string, hash: string, access: string, refresh: string, now: int)
    requires TokenInv(s) && hash in Unspent(s, device) && access !in s.tokens && refresh !in s.tokens && access != refresh
    requires t.tokens == s.tokens[hash := s.tokens[hash].(consumed := true)][access := Token(device, Access, now + 300, false)]
                                 [refresh := Token(device, Refresh, now + 2_592_000, false)]
    ensures Unspent(s, device) == {hash} && Unspent(t, device) == {refresh}
    ensures forall d :: d in s.devices && d != device ==> Unspent(t, d) == Unspent(s, d)
  {
    assert device in s.devices;
    SingleIs(Unspent(s, device), hash);
    forall h | h in Unspent(t, device) && h != refresh
      ensures h in Unspent(s, device) && h != hash
    {}
    assert refresh in Unspent(t, device);
  }

  /** Rotation replaces the one unspent refresh token by another. */
  lemma RotateKeepsTokens(c: Crypto, s: Store, m: Message, token: string, signature: string, access: string, refresh: string, now: int)
    requires TokenInv(s) && m.ForRefresh?
    ensures var r := RefreshTokens(c, s, m, token, signature, access, refresh, now);
            (r.Issued? ==> TokenInv(r.store) && Unspent(s, m.device) == {c.digest(token)} && Unspent(r.store, m.device) == {refresh})
            && (r.Reused? ==> TokenInv(r.store))
  {
    hide InTime; hide ValidNonce;
    var r := RefreshTokens(c, s, m, token, signature, access, refresh, now);
    if r.Issued? {
      assert c.digest(token) in Unspent(s, m.device);
      RotationUnspent(s, r.store, m.device, c.digest(token), access, refresh, now);
      hide Unspent;
      assert r.store.devices == s.devices && forall h :: h in r.store.tokens ==> r.store.tokens[h].device in s.devices;
    } else if r.Reused? {
      SameTokens(s, r.store);
    }
  }

  lemma PairKeepsTokens(c: Crypto, s: Store, m: Message, signature: string, device: string, access: string, refresh: string, now: int)
    requires TokenInv(s) && m.ForExchange?
    ensures var r := Exchange(c, s, m, signature, device, access, refresh, now);
            r.Created? ==> TokenInv(r.store) && Unspent(r.store, device) == {refresh}
  {
    hide InTime;
    var r := Exchange(c, s, m, signature, device, access, refresh, now);
    if r.Created? {
      assert Unspent(r.store, device) == {refresh};
      forall d | d in s.devices
        ensures |Unspent(r.store, d)| == 1
      {
        assert Unspent(r.store, d) == Unspent(s, d);
      }
    }
  }

  // ---- Whole runs -----------------------------------------------------------------------------

  ghost predicate Inv(s: Store, now: int) { NonceInv(s, now) && ClockInv(s, now) && OnceInv(s) && TokenInv(s) }

  lemma LaterIsFine(s: Store, before: int, now: int)
    requires NonceInv(s, before) && ClockInv(s, before) && before <= now
    ensures NonceInv(s, now) && ClockInv(s, now)
  {}

  lemma RotateKeepsNonces(c: Crypto, s: Store, m: Message, token: string, signature: string, access: string, refresh: string, now: int)
    requires NonceInv(s, now) && ClockInv(s, now) && OnceInv(s) && m.ForRefresh?
    ensures var r := RefreshTokens(c, s, m, token, signature, access, refresh, now);
            !r.Denied? ==> NonceInv(r.store, now) && ClockInv(r.store, now) && OnceInv(r.store)
  {}

  lemma StepKeeps(c: Crypto, s: Store, t: Timed, before: int)
    requires Inv(s, before) && before <= t.now && WellTyped(t.step)
    ensures Inv(Next(c, s, t), t.now)
  {
    hide InTime; hide ValidNonce; hide NonceInv; hide ClockInv; hide OnceInv; hide TokenInv; hide VerifyRequest; hide RefreshTokens; hide Exchange;
    LaterIsFine(s, before, t.now);
    match t.step
    case Call(token, m, signature) =>
      CallKeepsNonces(c, s, token, m, signature, before, t.now);
      CallKeepsOnce(c, s, token, m, signature, before, t.now);
      CallKeepsTokens(c, s, token, m, signature, t.now);
    case Rotate(m, token, signature, access, refresh) =>
      RotateKeepsNonces(c, s, m, token, signature, access, refresh, t.now);
      RotateKeepsTokens(c, s, m, token, signature, access, refresh, t.now);
    case Pair(m, signature, device, access, refresh) =>
      PairKeepsTokens(c, s, m, signature, device, access, refresh, t.now);
      PairKeepsNonces(c, s, m, signature, device, access, refresh, t.now);
    case _ => OthersKeep(c, s, t);
  }

  lemma CallKeepsTokens(c: Crypto, s: Store, token: string, m: Message, signature: string, now: int)
    requires TokenInv(s) && m.ForRequest?
    ensures var r := VerifyRequest(c, s, token, m, signature, now); r.Some? ==> TokenInv(r.value)
  {}

  lemma PairKeepsNonces(c: Crypto, s: Store, m: Message, signature: string, device: string, access: string, refresh: string, now: int)
    requires NonceInv(s, now) && ClockInv(s, now) && OnceInv(s) && m.ForExchange?
    ensures var r := Exchange(c, s, m, signature, device, access, refresh, now);
            r.Created? ==> NonceInv(r.store, now) && ClockInv(r.store, now) && OnceInv(r.store)
  {}

  lemma OthersKeep(c: Crypto, s: Store, t: Timed)
    requires Inv(s, t.now) && (t.step.Authorize? || t.step.Approve? || t.step.Revoke?)
    ensures Inv(Next(c, s, t), t.now)
  {}

  lemma {:induction false} RunKeeps(c: Crypto, states: seq<Store>, steps: seq<Timed>, i: nat)
    requires IsRun(c, states, steps) && 0 < i < |states|
    ensures Inv(states[i], steps[i - 1].now)
  {
    hide Inv; hide Next;
    if i == 1 {
      EmptyHolds(steps[0].now);
      StepKeeps(c, states[0], steps[0], steps[0].now);
    } else {
      RunKeeps(c, states, steps, i - 1);
      StepKeeps(c, states[i - 1], steps[i - 1], steps[i - 2].now);
    }
  }

  lemma EmptyHolds(now: int)
    ensures Inv(EMPTY, now)
  {}

  /** Although nonces are deleted after 60 seconds and clocks may differ by 30 either way, no signed request is ever accepted twice. */
  lemma RequestsAreAcceptedOnce(c: Crypto, states: seq<Store>, steps: seq<Timed>, i: nat, j: nat, k: nat)
    requires IsRun(c, states, steps) && i < |states| && j < k < |states[i].accepted|
    ensures var a, b := states[i].accepted[j], states[i].accepted[k];
            ForRequest(a.device, a.nonce, a.timestamp, a.call) != ForRequest(b.device, b.nonce, b.timestamp, b.call)
            && (a.device == b.device && a.nonce == b.nonce ==> a.timestamp != b.timestamp)
  {
    hide IsRun; hide TokenInv; hide NonceInv;
    if i == 0 { StartsEmpty(c, states, steps); } else { RunKeeps(c, states, steps, i); }
  }

  lemma StartsEmpty(c: Crypto, states: seq<Store>, steps: seq<Timed>)
    requires IsRun(c, states, steps)
    ensures |states| > 0 && states[0] == EMPTY
  {}

  /** Every device has exactly one refresh token that has not been consumed, whatever was rotated, replayed or revoked. */
  lemma OneRefreshTokenEach(c: Crypto, states: seq<Store>, steps: seq<Timed>, i: nat, device: string)
    requires IsRun(c, states, steps) && i < |states| && device in states[i].devices
    ensures |Unspent(states[i], device)| == 1
  {
    hide IsRun; hide NonceInv; hide OnceInv; hide Unspent;
    if i == 0 { StartsEmpty(c, states, steps); } else { RunKeeps(c, states, steps, i); }
  }

  /** No request of the device has been accepted in between. */
  ghost predicate NoneAccepted(s: Store, t: Store, device: string) {
    s.accepted <= t.accepted && forall a :: a in t.accepted[|s.accepted|..] ==> a.device != device
  }

  lemma CallOfRevoked(c: Crypto, s: Store, token: string, m: Message, signature: string, now: int, device: string)
    requires m.ForRequest? && device in s.devices && s.devices[device].revoked
    ensures var r := VerifyRequest(c, s, token, m, signature, now);
            r.Some? ==> device in r.value.devices && r.value.devices[device].revoked && NoneAccepted(s, r.value, device)
  {
    hide InTime; hide ValidNonce; hide Forgotten;
  }

  lemma RevokedStaysOut(c: Crypto, s: Store, t: Timed, device: string)
    requires WellTyped(t.step) && device in s.devices && s.devices[device].revoked
    ensures var next := Next(c, s, t); device in next.devices && next.devices[device].revoked && NoneAccepted(s, next, device)
  {
    hide InTime; hide ValidNonce; hide Forgotten; hide VerifyRequest;
    if t.step.Call? { CallOfRevoked(c, s, t.step.token, t.step.message, t.step.signature, t.now, device); }
  }

  /** Once a device is revoked, by its owner or because a consumed refresh token came back, no request of it is accepted in the rest of
      the run. */
  lemma {:induction false} RevokedForGood(c: Crypto, states: seq<Store>, steps: seq<Timed>, i: nat, j: nat, device: string)
    requires IsRun(c, states, steps) && i <= j < |states| && device in states[i].devices && states[i].devices[device].revoked
    ensures device in states[j].devices && states[j].devices[device].revoked && NoneAccepted(states[i], states[j], device)
    decreases j
  {
    hide Next;
    if i < j {
      RevokedForGood(c, states, steps, i, j - 1, device);
      RevokedStaysOut(c, states[j - 1], steps[j - 1], device);
      assert states[j].accepted[|states[i].accepted|..]
          == states[j - 1].accepted[|states[i].accepted|..] + states[j].accepted[|states[j - 1].accepted|..];
    }
  }

  /** A consumed refresh token that comes back, rightly signed, shuts its device out for the rest of the run. */
  lemma ReuseRevokesForGood(c: Crypto, states: seq<Store>, steps: seq<Timed>, i: nat, j: nat)
    requires IsRun(c, states, steps) && i < |steps| && i < j < |states| && steps[i].step.Rotate?
    requires var r := steps[i].step;
             RefreshTokens(c, states[i], r.message, r.token, r.signature, r.access, r.refresh, steps[i].now).Reused?
    ensures var device := steps[i].step.message.device;
            device in states[j].devices && states[j].devices[device].revoked && NoneAccepted(states[i + 1], states[j], device)
  {
    RevokedForGood(c, states, steps, i + 1, j, steps[i].step.message.device);
  }
}
