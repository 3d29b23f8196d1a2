/** The stored agent identity: its JSON document, the structural check, and the
    check that the protected private key is the one the public key belongs to. */
module Identity {
  import opened Common

  const MACHINE_PROTECTION := "dpapi-machine-v1"
  const KEY_ALGORITHM := "Ed25519"
  const MAX_STATE_SIZE := 0x10_0000
  const PRIVATE_KEY_SIZE := 64
  const PUBLIC_KEY_SIZE := 32
  const SEED_SIZE := 32

  datatype Json = Text(text: string) | Flag(flag: bool) | Null | Other(raw: string)

  type Document = map<string, Json>

  datatype AgentConfig = AgentConfig(
    agentId: string,
    algorithm: string,
    publicKey: string,
    encryptedPrivateKey: string,
    protection: string)

  datatype IdentityError =
    | InvalidJson
    | InvalidAgentId
    | UnsupportedAlgorithm
    | UnsupportedProtection
    | MalformedPublicKey
    | MalformedPrivateKey
    | LegacyProtection
    | CannotDecrypt
    | InvalidKeyLength
    | InconsistentKey
    | KeyMismatch

  /** The foreign calls. `decrypt` is what data protection recovers from a blob
      when the call works; a single call may still fail. */
  datatype Platform = Platform(
    parse: Bytes -> Option<Document>,
    render: Document -> Bytes,
    validUuid: string -> bool,
    decode64: string -> Option<Bytes>,
    encode64: Bytes -> string,
    decrypt: Bytes -> Option<Bytes>,
    derive: Bytes -> Bytes,
    fingerprint: Bytes -> string)
  {
    /** The laws the code relies on: what it renders parses back, and standard
        base64 decodes what it encoded. */
    ghost predicate Lawful() {
      && (forall d :: parse(render(d)) == Some(d))
      && (forall b :: decode64(encode64(b)) == Some(b))
    }
  }

  /** A missing or null string field reads as empty; another type is an error. */
  function StringField(d: Document, name: string): Option<string> {
    if name !in d then Some("") else
    match d[name]
    case Text(t) => Some(t)
    case Null => Some("")
    case _ => None
  }

  predicate BoolField(d: Document, name: string) {
    name in d ==> d[name].Flag? || d[name].Null?
  }

  function DecodeConfig(d: Document): Option<AgentConfig> {
    match (StringField(d, "agent_id"), StringField(d, "algorithm"), StringField(d, "public_key"),
           StringField(d, "encrypted_private_key"), StringField(d, "private_key_protection"))
    case (Some(id), Some(algorithm), Some(public), Some(private), Some(protection)) =>
      Some(AgentConfig(id, algorithm, public, private, protection))
    case _ => None
  }

  predicate IsKeyText(p: Platform, text: string) {
    p.decode64(text).Some? && |p.decode64(text).value| == PUBLIC_KEY_SIZE
  }

  function DecodeIdentity(p: Platform, data: Bytes): Result<AgentConfig, IdentityError> {
    if p.parse(data).None? then Err(InvalidJson) else
    match DecodeConfig(p.parse(data).value)
    case None => Err(InvalidJson)
    case Some(cfg) =>
      if |cfg.agentId| != 36 || !p.validUuid(cfg.agentId) then Err(InvalidAgentId)
      else if cfg.algorithm != KEY_ALGORITHM then Err(UnsupportedAlgorithm)
      else if cfg.protection != "" && cfg.protection != MACHINE_PROTECTION then Err(UnsupportedProtection)
      else if !IsKeyText(p, cfg.publicKey) then Err(MalformedPublicKey)
      else match p.decode64(cfg.encryptedPrivateKey)
        case None => Err(MalformedPrivateKey)
        case Some(blob) => if blob == [] then Err(MalformedPrivateKey) else Ok(cfg)
  }

  /** All 64 bytes must come from the seed, and the suffix must be the public key. */
  function ValidateKey(p: Platform, key: Bytes, publicKey: string): Option<IdentityError> {
    if |key| != PRIVATE_KEY_SIZE then Some(InvalidKeyLength)
    else if key != p.derive(key[..SEED_SIZE]) then Some(InconsistentKey)
    else if !IsKeyText(p, publicKey) || p.decode64(publicKey).value != key[SEED_SIZE..] then Some(KeyMismatch)
    else None
  }

  /** The private key of an identity; `fails` is a decryption call that fails. */
  function KeyFromIdentity(p: Platform, data: Bytes, requireMachine: bool, fails: bool)
    : Result<Bytes, IdentityError>
  {
    match DecodeIdentity(p, data)
    case Err(e) => Err(e)
    case Ok(cfg) =>
      if requireMachine && cfg.protection != MACHINE_PROTECTION then Err(LegacyProtection) else
      match p.decode64(cfg.encryptedPrivateKey)
      case None => Err(MalformedPrivateKey)
      case Some(blob) =>
        if fails || p.decrypt(blob).None? then Err(CannotDecrypt) else
        var key := p.decrypt(blob).value;
        match ValidateKey(p, key, cfg.publicKey)
        case Some(e) => Err(e)
        case None => Ok(key)
  }

  /** The in-memory check of a re-protected identity against the original one. */
  predicate VerifyMigrated(p: Platform, data: Bytes, original: AgentConfig, key: Bytes, fails: bool) {
    && |data| <= MAX_STATE_SIZE
    && DecodeIdentity(p, data).Ok?
    && (var cfg := DecodeIdentity(p, data).value;
        && cfg.agentId == original.agentId
        && cfg.algorithm == original.algorithm
        && cfg.publicKey == original.publicKey)
    && KeyFromIdentity(p, data, true, fails) == Ok(key)
  }

  predicate EnrollmentBinds(p: Platform, data: Bytes, cfg: AgentConfig) {
    && |data| <= MAX_STATE_SIZE
    && p.parse(data).Some?
    && (var d := p.parse(data).value;
        && StringField(d, "api").Some?
        && BoolField(d, "verified")
        && StringField(d, "agent_id") == Some(cfg.agentId)
        && p.decode64(cfg.publicKey).Some?
        && StringField(d, "public_key_sha256") == Some(p.fingerprint(p.decode64(cfg.publicKey).value)))
  }

  /** The re-protected identity: two fields replaced, every other field kept. */
  function Reprotect(p: Platform, d: Document, blob: Bytes): Document {
    d["encrypted_private_key" := Text(p.encode64(blob))]["private_key_protection" := Text(MACHINE_PROTECTION)]
  }

  /** Re-protection changes nothing that identifies the agent, and what it
      stores decodes to the new blob. */
  lemma ReprotectDecodes(p: Platform, data: Bytes, blob: Bytes)
    requires p.Lawful()
    requires DecodeIdentity(p, data).Ok?
    requires blob != []
    ensures
      var cfg := DecodeIdentity(p, data).value;
      DecodeIdentity(p, p.render(Reprotect(p, p.parse(data).value, blob)))
        == Ok(cfg.(encryptedPrivateKey := p.encode64(blob), protection := MACHINE_PROTECTION))
  {
    var d := p.parse(data).value;
    var e := Reprotect(p, d, blob);
    assert p.parse(p.render(e)) == Some(e);
    assert p.decode64(p.encode64(blob)) == Some(blob);
    assert StringField(e, "agent_id") == StringField(d, "agent_id");
    assert StringField(e, "algorithm") == StringField(d, "algorithm");
    assert StringField(e, "public_key") == StringField(d, "public_key");
  }

  /** Verification of the candidate asks exactly for a bounded file and a blob
      that decrypts to the key. */
  lemma CandidateVerifies(p: Platform, data: Bytes, key: Bytes, blob: Bytes)
    requires p.Lawful()
    requires KeyFromIdentity(p, data, false, false) == Ok(key)
    ensures
      var candidate := p.render(Reprotect(p, p.parse(data).value, blob));
      blob != [] ==>
        (VerifyMigrated(p, candidate, DecodeIdentity(p, data).value, key, false)
         <==> |candidate| <= MAX_STATE_SIZE && p.decrypt(blob) == Some(key))
  {
    if blob != [] {
      ReprotectDecodes(p, data, blob);
      assert p.decode64(p.encode64(blob)) == Some(blob);
    }
  }

  /** Loading a key into a caller-owned buffer. Every rejected plaintext is
      overwritten; an accepted one is exactly the key of the identity. */
  method LoadKey(p: Platform, data: Bytes, requireMachine: bool, buffer: array<Byte>, fails: bool)
    returns (r: Result<Bytes, IdentityError>)
    requires
      var d := DecodeIdentity(p, data);
      d.Ok? && p.decode64(d.value.encryptedPrivateKey).Some? && !fails ==>
        p.decrypt(p.decode64(d.value.encryptedPrivateKey).value) == Some(buffer[..])
    modifies buffer
    ensures r == KeyFromIdentity(p, data, requireMachine, fails)
    ensures r.Ok? ==> buffer[..] == old(buffer[..]) == r.value
    ensures r.Err? && r.error in {CannotDecrypt, InvalidKeyLength, InconsistentKey, KeyMismatch} ==>
              forall i :: 0 <= i < buffer.Length ==> buffer[i] == 0
  {
    var decoded := DecodeIdentity(p, data);
    if decoded.Err? {
      return Err(decoded.error);
    }
    var cfg := decoded.value;
    if requireMachine && cfg.protection != MACHINE_PROTECTION {
      return Err(LegacyProtection);
    }
    if p.decode64(cfg.encryptedPrivateKey).None? {
      return Err(MalformedPrivateKey);
    }
    if fails {
      Clear(buffer);
      return Err(CannotDecrypt);
    }
    var rejected := ValidateKey(p, buffer[..], cfg.publicKey);
    if rejected.Some? {
      Clear(buffer);
      return Err(rejected.value);
    }
    r := Ok(buffer[..]);
  }

  method Clear(buffer: array<Byte>)
    modifies buffer
    ensures forall i :: 0 <= i < buffer.Length ==> buffer[i] == 0
  {
    for i := 0 to buffer.Length
      invariant forall j :: 0 <= j < i ==> buffer[j] == 0
    {
      buffer[i] := 0;
    }
  }
}
