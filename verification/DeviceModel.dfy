/** Device authorization as values: devices, rotating tokens, and the nonces of signed requests. Times are whole seconds. */
module DeviceModel {
  import opened Common

  datatype Kind = Access | Refresh
  datatype Device = Device(owner: string, key: string, revoked: bool, seen: int)

  /** Tokens are kept by their hash. */
  datatype Token = Token(device: string, kind: Kind, expires: int, consumed: bool)
  datatype Authorization = Authorization(key: string, expires: int, approvedBy: Option<string>, consumed: bool)

  /** What is signed, besides the version line. */
  datatype Message =
    | ForRequest(device: string, nonce: string, timestamp: int, call: string)
    | ForRefresh(device: string, nonce: string, token: string, timestamp: int)
    | ForExchange(authorization: string, timestamp: int)

  /** Signatures are an uninterpreted predicate of the public key, the message and the signature; hashing is a function. */
  datatype Crypto = Crypto(verifies: (string, Message, string) -> bool, digest: string -> string)

  datatype Acceptance = Acceptance(device: string, nonce: string, timestamp: int, call: string, at: int)

  /** accepted lists every signed request let through; nothing reads it. */
  datatype Store = Store(authorizations: map<string, Authorization>, devices: map<string, Device>, tokens: map<string, Token>,
                         nonces: map<(string, string), int>, accepted: seq<Acceptance>)

  const NONCE_SECONDS := 60
  const SKEW_SECONDS := 30

  predicate InTime(now: int, timestamp: int) { -SKEW_SECONDS <= now - timestamp <= SKEW_SECONDS }
  predicate ValidNonce(nonce: string) { 16 <= |nonce| <= 128 }

  function Forgotten(nonces: map<(string, string), int>, now: int): map<(string, string), int> {
    map n | n in nonces && nonces[n] >= now - NONCE_SECONDS :: nonces[n]
  }

  /** A signed request. None is a refusal, which changes nothing. */
  function VerifyRequest(c: Crypto, s: Store, token: string, m: Message, signature: string, now: int): Option<Store>
    requires m.ForRequest?
  {
    var hash := c.digest(token);
    if !InTime(now, m.timestamp) || !ValidNonce(m.nonce) then None
    else if m.device !in s.devices || s.devices[m.device].revoked then None
    else if hash !in s.tokens || s.tokens[hash].device != m.device || !s.tokens[hash].kind.Access? || s.tokens[hash].expires <= now
            || s.tokens[hash].consumed then None
    else if !c.verifies(s.devices[m.device].key, m, signature) then None
    else
      var nonces := Forgotten(s.nonces, now);
      if (m.device, m.nonce) in nonces then None
      else Some(s.(nonces := nonces[(m.device, m.nonce) := now], devices := s.devices[m.device := s.devices[m.device].(seen := now)],
                   accepted := s.accepted + [Acceptance(m.device, m.nonce, m.timestamp, m.call, now)]))
  }

  /** The new pair of tokens: their hashes are primary keys, so a collision fails. */
  function IssueTokens(s: Store, device: string, access: string, refresh: string, now: int): Option<Store> {
    if access in s.tokens || refresh in s.tokens || access == refresh then None
    else Some(s.(tokens := s.tokens[access := Token(device, Access, now + 300, false)][refresh := Token(device, Refresh, now + 2_592_000, false)]))
  }

  datatype Refreshed = Issued(store: Store) | Reused(store: Store) | Denied

  /** access and refresh are the hashes of the tokens to be issued. */
  function RefreshTokens(c: Crypto, s: Store, m: Message, token: string, signature: string, access: string, refresh: string, now: int): Refreshed
    requires m.ForRefresh?
  {
    var hash := c.digest(token);
    if !InTime(now, m.timestamp) || !ValidNonce(m.nonce) then Denied
    else if m.device !in s.devices || s.devices[m.device].revoked then Denied
    else if m.token != hash || !c.verifies(s.devices[m.device].key, m, signature) then Denied
    else if hash !in s.tokens || s.tokens[hash].device != m.device || !s.tokens[hash].kind.Refresh? || s.tokens[hash].expires <= now then Denied
    else if s.tokens[hash].consumed then Reused(s.(devices := s.devices[m.device := s.devices[m.device].(revoked := true)]))
    else if (m.device, m.nonce) in s.nonces then Denied
    else
      var spent := s.(nonces := s.nonces[(m.device, m.nonce) := now], tokens := s.tokens[hash := s.tokens[hash].(consumed := true)]);
      match IssueTokens(spent, m.device, access, refresh, now)
      case None => Denied
      case Some(issued) => Issued(issued)
  }

  datatype Exchanged = Created(store: Store) | Pending | Invalid

  /** device is the identifier minted for the new device. */
  function Exchange(c: Crypto, s: Store, m: Message, signature: string, device: string, access: string, refresh: string, now: int): Exchanged
    requires m.ForExchange?
  {
    if !InTime(now, m.timestamp) then Invalid
    else if m.authorization !in s.authorizations then Invalid
    else
      var a := s.authorizations[m.authorization];
      if a.expires <= now || a.consumed || !c.verifies(a.key, m, signature) then Invalid
      else if a.approvedBy.None? then Pending
      else if device in s.devices then Invalid
      else
        var made := s.(devices := s.devices[device := Device(a.approvedBy.value, a.key, false, now)],
                       authorizations := s.authorizations[m.authorization := a.(consumed := true)]);
        match IssueTokens(made, device, access, refresh, now)
        case None => Invalid
        case Some(issued) => Created(issued)
  }

  datatype Step =
    | Call(token: string, message: Message, signature: string)
    | Rotate(message: Message, token: string, signature: string, access: string, refresh: string)
    | Pair(message: Message, signature: string, device: string, access: string, refresh: string)
    | Authorize(id: string, key: string)
    | Approve(id: string, owner: string)
    | Revoke(device: string)

  /** Every step happens at a time, and time does not go back. */
  datatype Timed = Timed(now: int, step: Step)

  predicate WellTyped(step: Step) {
    match step
    case Call(_, m, _) => m.ForRequest?
    case Rotate(m, _, _, _, _) => m.ForRefresh?
    case Pair(m, _, _, _, _) => m.ForExchange?
    case _ => true
  }

  function Next(c: Crypto, s: Store, t: Timed): Store
    requires WellTyped(t.step)
  {
    match t.step
    case Call(token, m, signature) =>
      var r := VerifyRequest(c, s, token, m, signature, t.now);
      if r.Some? then r.value else s
    case Rotate(m, token, signature, access, refresh) =>
      var r := RefreshTokens(c, s, m, token, signature, access, refresh, t.now);
      if r.Denied? then s else r.store
    case Pair(m, signature, device, access, refresh) =>
      var r := Exchange(c, s, m, signature, device, access, refresh, t.now);
      if r.Created? then r.store else s
    case Authorize(id, key) =>
      if id in s.authorizations then s
      else s.(authorizations := s.authorizations[id := Authorization(key, t.now + 600, None, false)])
    case Approve(id, owner) =>
      if id in s.authorizations && s.authorizations[id].expires > t.now && !s.authorizations[id].consumed && s.authorizations[id].approvedBy.None?
      then s.(authorizations := s.authorizations[id := s.authorizations[id].(approvedBy := Some(owner))]) else s
    case Revoke(device) =>
      if device in s.devices then s.(devices := s.devices[device := s.devices[device].(revoked := true)]) else s
  }

  const EMPTY := Store(map[], map[], map[], map[], [])

  predicate IsRun(c: Crypto, states: seq<Store>, steps: seq<Timed>) {
    && |states| == |steps| + 1 && states[0] == EMPTY
    && (forall i :: 0 <= i < |steps| ==> WellTyped(steps[i].step) && states[i + 1] == Next(c, states[i], steps[i]))
    && (forall i, j :: 0 <= i < j < |steps| ==> steps[i].now <= steps[j].now)
  }
}
